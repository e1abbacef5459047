/**
 * The room registry and its rooms: each is an owner goroutine handling one command at a time, and
 * a room that empties tells the hub so, late, out of order, or more than once.
 */
module Hub {
  import opened Base

  /** A room goroutine: running until it agrees to close. */
  datatype Room = Room(name: string, running: bool, members: set<nat>)

  /** What the hub is in the middle of, waiting for a room to answer. */
  datatype Phase = Idle | Joining(room: nat, client: nat) | Reaping(name: string, room: nat)

  /**
   * `empties` are notifications on their way to the hub, `joined` the clients that ever joined,
   * `closed` the send channels closed so far, in order.
   */
  datatype State = State(
    registry: map<string, nat>, rooms: seq<Room>, phase: Phase, empties: multiset<string>, joined: set<nat>,
    closed: seq<nat>)

  const NEW_HUB := State(map[], [], Idle, multiset{}, {}, [])

  datatype Step =
    | HubJoin(name: string, client: nat)
    | RoomJoin
    | RoomCast(room: nat, evicted: seq<nat>)
    | RoomLeave(room: nat, client: nat)
    | HubEmpty(name: string)
    | RoomClose
    | Shutdown(order: seq<nat>)

  ghost predicate Distinct(ids: seq<nat>)
  {
    forall i, j :: 0 <= i < j < |ids| ==> ids[i] != ids[j]
  }

  /** Everybody still in some room, each once, in the order their channels will be closed. */
  ghost predicate Everyone(s: State, order: seq<nat>)
  {
    && Distinct(order)
    && forall c: nat :: c in order <==>
         exists r :: r in s.registry.Values && r < |s.rooms| && c in s.rooms[r].members
  }

  ghost predicate Enabled(s: State, step: Step)
  {
    match step
    case HubJoin(name, client) => s.phase.Idle? && client !in s.joined
    case RoomJoin => s.phase.Joining? && s.phase.room < |s.rooms| && s.rooms[s.phase.room].running
    case RoomCast(room, evicted) =>
      room < |s.rooms| && s.rooms[room].running && Distinct(evicted)
      && forall c :: c in evicted ==> c in s.rooms[room].members
    case RoomLeave(room, client) => room < |s.rooms|
    case HubEmpty(name) => s.phase.Idle?
    case RoomClose => s.phase.Reaping? && s.phase.room < |s.rooms| && s.rooms[s.phase.room].running
    case Shutdown(order) => s.phase.Idle? && Everyone(s, order)
  }

  /** Take clients out of a room, closing their channels; the last one out sends a notification. */
  function Remove(s: State, room: nat, gone: seq<nat>): State
    requires room < |s.rooms|
  {
    var r := s.rooms[room];
    var members := r.members - (set c | c in gone);
    s.(rooms := s.rooms[room := r.(members := members)], closed := s.closed + gone,
       empties := if gone != [] && members == {} then s.empties + multiset{r.name} else s.empties)
  }

  ghost function Next(s: State, step: Step): State
    requires Enabled(s, step)
  {
    match step
    case HubJoin(name, client) =>
      if name in s.registry then s.(phase := Joining(s.registry[name], client), joined := s.joined + {client})
      else s.(registry := s.registry[name := |s.rooms|], rooms := s.rooms + [Room(name, true, {})],
              phase := Joining(|s.rooms|, client), joined := s.joined + {client})
    case RoomJoin =>
      var r := s.rooms[s.phase.room];
      s.(rooms := s.rooms[s.phase.room := r.(members := r.members + {s.phase.client})], phase := Idle)
    case RoomCast(room, evicted) => Remove(s, room, evicted)
    case RoomLeave(room, client) =>
      if s.rooms[room].running && client in s.rooms[room].members then Remove(s, room, [client]) else s
    case HubEmpty(name) =>
      var left := s.empties - multiset{name};
      if name in s.registry then s.(phase := Reaping(name, s.registry[name]), empties := left) else s.(empties := left)
    case RoomClose =>
      var r := s.rooms[s.phase.room];
      if r.members == {}
      then s.(rooms := s.rooms[s.phase.room := r.(running := false)], registry := s.registry - {s.phase.name},
              phase := Idle)
      else s.(phase := Idle)
    case Shutdown(order) =>
      s.(registry := map[], closed := s.closed + order,
         rooms := seq(|s.rooms|, i requires 0 <= i < |s.rooms| => Room(s.rooms[i].name, false, {})))
  }

  // ---------- the invariant ----------

  /** Registered rooms are exactly the running ones, each under its own name. */
  ghost predicate Registered(s: State)
  {
    && (forall name :: name in s.registry ==>
          s.registry[name] < |s.rooms| && s.rooms[s.registry[name]].running && s.rooms[s.registry[name]].name == name)
    && (forall r :: 0 <= r < |s.rooms| && s.rooms[r].running ==>
          s.rooms[r].name in s.registry && s.registry[s.rooms[r].name] == r)
    && (forall r :: 0 <= r < |s.rooms| && !s.rooms[r].running ==> s.rooms[r].members == {})
  }

  /** The room the hub waits for is there to answer. */
  ghost predicate Answered(s: State)
  {
    match s.phase
    case Idle => true
    case Joining(r, c) => r < |s.rooms| && s.rooms[r].running && c in s.joined && c !in s.closed && Nowhere(s, c)
    case Reaping(name, r) => name in s.registry && s.registry[name] == r
  }

  ghost predicate Nowhere(s: State, c: nat)
  {
    forall r :: 0 <= r < |s.rooms| ==> c !in s.rooms[r].members
  }

  /** A member is in one room only, and its channel is open. */
  ghost predicate MembersOk(s: State)
  {
    && (forall r, c :: 0 <= r < |s.rooms| && c in s.rooms[r].members ==> c in s.joined && c !in s.closed)
    && (forall r, q, c :: 0 <= r < q < |s.rooms| && c in s.rooms[r].members ==> c !in s.rooms[q].members)
  }

  /** No channel is closed twice, and only clients that joined have theirs closed. */
  ghost predicate ClosedOk(s: State)
  {
    Distinct(s.closed) && forall c :: c in s.closed ==> c in s.joined
  }

  ghost predicate IsMember(s: State, c: nat)
  {
    exists r :: 0 <= r < |s.rooms| && s.rooms[r].running && c in s.rooms[r].members
  }

  /** Whoever joined is in a running room, or has been let go, or is just joining. */
  ghost predicate Accounted(s: State)
  {
    forall c :: c in s.joined ==> c in s.closed || IsMember(s, c) || (s.phase.Joining? && s.phase.client == c)
  }

  /** An empty running room is being joined or reaped, or the hub will still hear of it. */
  ghost predicate NoneForgotten(s: State)
  {
    forall r :: 0 <= r < |s.rooms| && s.rooms[r].running && s.rooms[r].members == {} ==>
      s.rooms[r].name in s.empties || (!s.phase.Idle? && s.phase.room == r)
  }

  ghost predicate Inv(s: State)
  {
    Registered(s) && Answered(s) && MembersOk(s) && ClosedOk(s) && Accounted(s) && NoneForgotten(s)
  }

  lemma DistinctConcat(a: seq<nat>, b: seq<nat>)
    requires Distinct(a) && Distinct(b) && forall c :: c in b ==> c !in a
    ensures Distinct(a + b)
  {
    assert forall j :: 0 <= j < |b| ==> b[j] in b;
  }

  lemma RemoveKeepsInv(s: State, room: nat, gone: seq<nat>)
    requires Inv(s) && room < |s.rooms| && s.rooms[room].running && Distinct(gone)
    requires forall c :: c in gone ==> c in s.rooms[room].members
    ensures Inv(Remove(s, room, gone))
  {
    var s' := Remove(s, room, gone);
    DistinctConcat(s.closed, gone);
    forall c | c in s'.joined ensures c in s'.closed || IsMember(s', c) || (s'.phase.Joining? && s'.phase.client == c) {
      if r :| 0 <= r < |s.rooms| && s.rooms[r].running && c in s.rooms[r].members {
        assert c in gone || (s'.rooms[r].running && c in s'.rooms[r].members);
      }
    }
  }

  lemma HubJoinKeepsInv(s: State, name: string, client: nat)
    requires Inv(s) && Enabled(s, HubJoin(name, client))
    ensures Inv(Next(s, HubJoin(name, client)))
  {
    HubJoinAccounts(s, name, client);
    HubJoinRegisters(s, name, client);
  }

  lemma HubJoinRegisters(s: State, name: string, client: nat)
    requires Registered(s) && Answered(s) && MembersOk(s) && ClosedOk(s) && Enabled(s, HubJoin(name, client))
    ensures Registered(Next(s, HubJoin(name, client))) && Answered(Next(s, HubJoin(name, client)))
  {
  }

  lemma HubJoinAccounts(s: State, name: string, client: nat)
    requires Accounted(s) && Enabled(s, HubJoin(name, client))
    ensures Accounted(Next(s, HubJoin(name, client)))
  {
    var s' := Next(s, HubJoin(name, client));
    forall c | c in s'.joined ensures c in s'.closed || IsMember(s', c) || (s'.phase.Joining? && s'.phase.client == c) {
      if r :| 0 <= r < |s.rooms| && s.rooms[r].running && c in s.rooms[r].members {
        assert s'.rooms[r] == s.rooms[r];
      }
    }
  }

  lemma RoomJoinKeepsInv(s: State)
    requires Inv(s) && Enabled(s, RoomJoin)
    ensures Inv(Next(s, RoomJoin))
  {
    var s', room := Next(s, RoomJoin), s.phase.room;
    assert s'.rooms[room].running && s.phase.client in s'.rooms[room].members;
    forall c | c in s'.joined ensures c in s'.closed || IsMember(s', c) {
      if r :| 0 <= r < |s.rooms| && s.rooms[r].running && c in s.rooms[r].members {
        assert s'.rooms[r].running && c in s'.rooms[r].members;
      }
    }
  }

  lemma RoomCloseKeepsInv(s: State)
    requires Inv(s) && Enabled(s, RoomClose)
    ensures Inv(Next(s, RoomClose))
  {
    var s' := Next(s, RoomClose);
    forall c | c in s'.joined ensures c in s'.closed || IsMember(s', c) {
      if r :| 0 <= r < |s.rooms| && s.rooms[r].running && c in s.rooms[r].members {
        assert s'.rooms[r].running && c in s'.rooms[r].members;
      }
    }
  }

  lemma HubEmptyKeepsInv(s: State, name: string)
    requires Inv(s) && Enabled(s, HubEmpty(name))
    ensures Inv(Next(s, HubEmpty(name)))
  {
    var s' := Next(s, HubEmpty(name));
    assert s'.rooms == s.rooms;
    forall c | c in s'.joined ensures c in s'.closed || IsMember(s', c) {
      assert IsMember(s, c) ==> IsMember(s', c);
    }
  }

  lemma ShutdownKeepsInv(s: State, order: seq<nat>)
    requires Inv(s) && Enabled(s, Shutdown(order))
    ensures Inv(Next(s, Shutdown(order)))
  {
    forall c | c in order ensures c !in s.closed && c in s.joined {
      var r :| r in s.registry.Values && r < |s.rooms| && c in s.rooms[r].members;
    }
    DistinctConcat(s.closed, order);
    forall c | c in s.joined && IsMember(s, c) ensures c in order {
      var r :| 0 <= r < |s.rooms| && s.rooms[r].running && c in s.rooms[r].members;
      assert s.registry[s.rooms[r].name] in s.registry.Values;
    }
  }

  lemma StepKeepsInv(s: State, step: Step)
    requires Inv(s) && Enabled(s, step)
    ensures Inv(Next(s, step))
  {
    match step
    case HubJoin(name, client) => HubJoinKeepsInv(s, name, client);
    case RoomJoin => RoomJoinKeepsInv(s);
    case RoomCast(room, evicted) => RemoveKeepsInv(s, room, evicted);
    case RoomLeave(room, client) =>
      if s.rooms[room].running && client in s.rooms[room].members { RemoveKeepsInv(s, room, [client]); }
    case HubEmpty(name) => HubEmptyKeepsInv(s, name);
    case RoomClose => RoomCloseKeepsInv(s);
    case Shutdown(order) => ShutdownKeepsInv(s, order);
  }

  // ---------- runs ----------

  ghost predicate StepAt(states: seq<State>, steps: seq<Step>, i: nat)
    requires |states| == |steps| + 1 && i < |steps|
  {
    Enabled(states[i], steps[i]) && states[i + 1] == Next(states[i], steps[i])
  }

  ghost predicate Run(states: seq<State>, steps: seq<Step>)
  {
    && |states| == |steps| + 1 && states[0] == NEW_HUB
    && forall i :: 0 <= i < |steps| ==> StepAt(states, steps, i)
  }

  lemma {:induction false} EveryStateIsOk(states: seq<State>, steps: seq<Step>, n: nat)
    requires Run(states, steps) && n < |states|
    ensures Inv(states[n])
  {
    if n > 0 {
      EveryStateIsOk(states, steps, n - 1);
      assert StepAt(states, steps, n - 1);
      StepKeepsInv(states[n - 1], steps[n - 1]);
    }
  }

  /**
   * Whatever notifications are delayed or repeated: every registered room is running, the hub
   * never waits for a room that has terminated, and a room is only reaped when it is empty.
   */
  lemma HubNeverCommandsTheDead(states: seq<State>, steps: seq<Step>, n: nat)
    requires Run(states, steps) && n < |states|
    ensures var s := states[n];
            && (forall name :: name in s.registry ==> s.registry[name] < |s.rooms| && s.rooms[s.registry[name]].running)
            && (s.phase.Joining? ==> Enabled(s, RoomJoin)) && (s.phase.Reaping? ==> Enabled(s, RoomClose))
            && (forall r :: 0 <= r < |s.rooms| && !s.rooms[r].running ==> s.rooms[r].members == {})
  {
    EveryStateIsOk(states, steps, n);
  }

  /**
   * Whoever joined and was not let go is in exactly one room, which is registered under its name;
   * no send channel is closed twice, and a room only ever sends to open ones.
   */
  lemma ClientsAreInRegisteredRooms(states: seq<State>, steps: seq<Step>, n: nat)
    requires Run(states, steps) && n < |states|
    ensures var s := states[n];
            && Distinct(s.closed)
            && (forall r, c :: 0 <= r < |s.rooms| && c in s.rooms[r].members ==>
                  c !in s.closed && s.rooms[r].name in s.registry && s.registry[s.rooms[r].name] == r)
            && (forall c :: c in s.joined && s.phase.Idle? ==> (c in s.closed) != IsMember(s, c))
  {
    EveryStateIsOk(states, steps, n);
  }

  /** Once the hub has heard every notification, no empty room is left behind. */
  lemma NoRoomLeaks(states: seq<State>, steps: seq<Step>, n: nat, name: string)
    requires Run(states, steps) && n < |states| && states[n].phase.Idle? && states[n].empties == multiset{}
    requires name in states[n].registry
    ensures var s := states[n]; s.registry[name] < |s.rooms| && s.rooms[s.registry[name]].members != {}
  {
    EveryStateIsOk(states, steps, n);
  }
}
