/** The hub's and the rooms' command handlers, working on their own sets in place. */
module Rooms {
  import opened Base

  /** A socket's send channel: sending to it or closing it after it was closed would panic. */
  class Client {
    const buffer: nat
    var queue: seq<string>
    var open: bool

    constructor (buffer: nat)
      ensures this.buffer == buffer && queue == [] && open
    {
      this.buffer, queue, open := buffer, [], true;
    }

    predicate HasRoom()
      reads this
    {
      |queue| < buffer
    }

    method TrySend(payload: string) returns (ok: bool)
      requires open
      modifies this`queue
      ensures ok == old(HasRoom()) && queue == if ok then old(queue) + [payload] else old(queue)
    {
      ok := |queue| < buffer;
      if ok {
        queue := queue + [payload];
      }
    }

    method CloseSend()
      requires open
      modifies this`open
      ensures !open
    {
      open := false;
    }
  }

  class Room {
    const name: string
    var running: bool
    var clients: set<Client>
    /** How many empty notifications were sent. */
    var notices: nat

    constructor (name: string)
      ensures this.name == name && running && clients == {} && notices == 0 && Valid()
    {
      this.name, running, clients, notices := name, true, {}, 0;
    }

    /** Members' channels are open, and a terminated room has none. */
    ghost predicate Valid()
      reads this, clients
    {
      (forall c :: c in clients ==> c.open) && (!running ==> clients == {})
    }

    method Join(c: Client)
      requires Valid() && running && c.open
      modifies this`clients
      ensures Valid() && clients == old(clients) + {c}
    {
      clients := clients + {c};
    }

    /** Only a member is removed, and so its channel closed; the last one out sends a notification. */
    method RemoveAndNotify(c: Client)
      requires Valid() && running
      modifies this`clients, this`notices, c`open
      ensures Valid() && clients == old(clients) - {c}
      ensures c.open == (old(c.open) && c !in old(clients))
      ensures notices == old(notices) + if c in old(clients) && clients == {} then 1 else 0
    {
      if c !in clients {
        return;
      }
      clients := clients - {c};
      c.CloseSend();
      if clients == {} {
        notices := notices + 1;
      }
    }

    /** Offer the payload to every member; those whose buffer is full are the ones to evict. */
    method Offer(payload: string) returns (evicted: set<Client>)
      requires Valid() && running
      modifies clients`queue
      ensures Valid() && evicted == set c | c in clients && !old(c.HasRoom())
      ensures forall c :: c in clients ==> c.queue == if c in evicted then old(c.queue) else old(c.queue) + [payload]
    {
      var todo := clients;
      evicted := {};
      while todo != {}
        invariant todo <= clients && evicted <= clients - todo
        invariant forall c :: c in clients && c in todo ==> c.queue == old(c.queue)
        invariant forall c :: c in clients && c !in todo ==> (c in evicted <==> !old(c.HasRoom()))
        invariant forall c :: c in clients && c !in todo ==>
          c.queue == if c in evicted then old(c.queue) else old(c.queue) + [payload]
        decreases |todo|
      {
        var c :| c in todo;
        todo := todo - {c};
        var ok := c.TrySend(payload);
        if !ok {
          evicted := evicted + {c};
        }
      }
    }

    /** Remove every evicted member. */
    method Evict(evicted: set<Client>)
      requires Valid() && running && evicted <= clients
      modifies this`clients, this`notices, evicted`open
      ensures Valid() && forall c: Client :: c in clients <==> c in old(clients) && c !in evicted
      ensures forall c :: c in evicted ==> !c.open
      ensures notices == old(notices) + if evicted != {} && clients == {} then 1 else 0
    {
      var todo := evicted;
      while todo != {}
        invariant todo <= evicted && Valid() && running
        invariant forall c: Client :: c in clients <==> c in old(clients) && (c in evicted ==> c in todo)
        invariant forall c: Client :: c in evicted && c !in todo ==> !c.open
        invariant notices == old(notices) + if clients == {} && evicted != {} then 1 else 0
        decreases |todo|
      {
        var c :| c in todo;
        RemoveAndNotify(c);
        todo := todo - {c};
      }
    }

    /** A slow member never holds the others up: it is dropped, with its channel closed. */
    method Broadcast(payload: string) returns (drops: nat)
      requires Valid() && running
      modifies this`clients, this`notices, clients
      ensures Valid() && forall c: Client :: c in clients <==> c in old(clients) && old(c.HasRoom())
      ensures forall c :: c in clients ==> c.queue == old(c.queue) + [payload]
      ensures forall c :: c in old(clients) && c !in clients ==> !c.open && c.queue == old(c.queue)
      ensures drops == |set c | c in old(clients) && !old(c.HasRoom())|
      ensures notices == old(notices) + if old(clients) != {} && clients == {} then 1 else 0
    {
      var evicted := Offer(payload);
      Evict(evicted);
      drops := |evicted|;
    }

    /** Agree to terminate, but only when nobody is in. */
    method Close() returns (closed: bool)
      requires Valid() && running
      modifies this`running
      ensures Valid() && closed == (clients == {}) && running == !closed
    {
      closed := clients == {};
      if closed {
        running := false;
      }
    }
  }

  class Hub {
    var rooms: map<string, Room>

    ghost predicate Valid()
      reads this, rooms.Values, set r, c | r in rooms.Values && c in r.clients :: c
    {
      && (forall name :: name in rooms ==> rooms[name].name == name && rooms[name].running && rooms[name].Valid())
      && (forall n, m :: n in rooms && m in rooms && n != m ==> rooms[n].clients !! rooms[m].clients)
    }

    /** The client is in no room of this hub. */
    ghost predicate Nowhere(c: Client)
      reads this, rooms.Values
    {
      forall name :: name in rooms ==> c !in rooms[name].clients
    }

    constructor ()
      ensures Valid() && rooms == map[]
    {
      rooms := map[];
    }

    /** Get or create the room and join it, in one command. */
    method Join(name: string, c: Client) returns (room: Room)
      requires Valid() && c.open && Nowhere(c)
      modifies this, rooms.Values
      ensures Valid() && name in rooms && rooms[name] == room && room.running
      ensures if name in old(rooms) then rooms == old(rooms) && room.clients == old(rooms[name].clients) + {c}
              else rooms == old(rooms)[name := room] && fresh(room) && room.clients == {c}
      ensures forall n :: n in old(rooms) && n != name ==> rooms[n].clients == old(rooms[n].clients)
    {
      if name in rooms {
        room := rooms[name];
      } else {
        room := new Room(name);
        rooms := rooms[name := room];
      }
      room.Join(c);
    }

    /** A notification is only a hint: the room is reaped if it is still there and still empty. */
    method HandleEmpty(name: string)
      requires Valid()
      modifies this, rooms.Values
      ensures Valid()
      ensures rooms == if name in old(rooms) && old(rooms[name].clients) == {} then old(rooms) - {name} else old(rooms)
      ensures forall n :: n in old(rooms) ==> old(rooms)[n].clients == old(rooms[n].clients)
      ensures forall n :: n in old(rooms) && n !in rooms ==> !old(rooms)[n].running
    {
      if name in rooms {
        var closed := rooms[name].Close();
        if closed {
          rooms := rooms - {name};
        }
      }
    }

    /** A room that is not there is a silent no-op. */
    method Broadcast(name: string, payload: string)
      requires Valid()
      modifies rooms.Values, set r, c | r in rooms.Values && c in r.clients :: c
      ensures Valid() && rooms == old(rooms)
      ensures name in rooms ==>
                forall c: Client :: c in rooms[name].clients <==> c in old(rooms[name].clients) && old(c.HasRoom())
      ensures forall n :: n in rooms && n != name ==> rooms[n].clients == old(rooms[n].clients)
    {
      if name in rooms {
        var drops := rooms[name].Broadcast(payload);
      }
    }
  }
}
