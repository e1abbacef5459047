/**
 * The Redis store: rooms with session wallets, rounds with pools and wagers, the outbox stream,
 * and the settle and refund calls in flight. Every script is one atomic step; a settle or refund
 * call is three steps (read status, read stakes, compare-and-set) that other steps may fall between.
 */
module Store {
  import opened Base
  import opened Payout
  import opened Stakes
  import opened Events

  // ---------- a round's life ----------

  datatype Status = Open | Locked | Resolved | Refunded

  datatype TransitionError = InvalidTransition

  function NextStatuses(s: Status): set<Status>
  {
    match s
    case Open => {Locked}
    case Locked => {Resolved, Refunded}
    case _ => {}
  }

  function Transition(s: Status, next: Status): Result<Status, TransitionError>
  {
    if next in NextStatuses(s) then Ok(next) else Err(InvalidTransition)
  }

  predicate IsTerminal(s: Status) { NextStatuses(s) == {} }

  const MIN_OUTCOMES := 2
  const MAX_OUTCOMES := 4

  datatype Round = Round(
    room: string, status: Status, outcomeCount: int, pools: map<int, int>, total: int,
    wagers: Wagers, bettors: set<string>, resolvedOutcome: Option<int>)

  /**
   * A room's hashes. The last four fields are accounts kept for the proofs: what joins granted,
   * per user and as a list, what ClearSession took out, and whose session was ever cleared.
   */
  datatype Room = Room(
    host: Option<string>, wallets: map<string, int>, opening: map<string, int>,
    granted: map<string, int>, grants: seq<int>, withdrawn: map<string, int>, cleared: set<string>)

  const NO_ROOM := Room(None, map[], map[], map[], [], map[], {})

  datatype Reply = Reply(balance: int, bettorCount: nat, total: int, pools: seq<int>)

  datatype WagerError =
    BadStake | PoolLocked | BadOutcome | HostCannotBet | NotInRoom | InsufficientFunds

  datatype WagerRequest = WagerRequest(
    room: string, round: string, user: string, outcome: int, amount: int, key: string)

  // ---------- settle and refund calls ----------

  datatype Aim = SettleOn(winner: int) | RefundAll

  datatype CallResult = Applied | AlreadySettled | NotLocked | NoRound | SettleFailed

  datatype Progress =
    | Started
    | SawLocked(room: string, count: int)
    | HasStakes(room: string, stakes: seq<Stake>)
    | Done(result: CallResult)

  datatype Call = Call(aim: Aim, round: string, key: string, at: Progress)

  /**
   * `forgotten` holds the idempotency keys whose cached reply has expired; like the room accounts
   * it is there for the proofs only.
   */
  datatype Store = Store(
    rooms: map<string, Room>, rounds: map<string, Round>, idem: map<string, Reply>,
    forgotten: set<string>, outbox: seq<Event>, calls: map<nat, Call>)

  const EMPTY := Store(map[], map[], map[], {}, [], map[])

  function RoomOf(s: Store, id: string): Room
  {
    if id in s.rooms then s.rooms[id] else NO_ROOM
  }

  // ---------- room steps ----------

  function CreateRoom(s: Store, id: string, host: string): Store
  {
    s.(rooms := s.rooms[id := RoomOf(s, id).(host := Some(host))])
  }

  /** Set-if-absent on the wallet and on the opening stake. */
  function Seed(r: Room, user: string, balance: int): Room
  {
    r.(wallets := if user in r.wallets then r.wallets else r.wallets[user := balance],
       opening := if user in r.opening then r.opening else r.opening[user := balance],
       granted := if user in r.wallets then r.granted else Bump(r.granted, user, balance),
       grants := if user in r.wallets then r.grants else r.grants + [balance])
  }

  function JoinRoom(s: Store, id: string, user: string, balance: int): Store
  {
    if balance <= 0 then s else s.(rooms := s.rooms[id := Seed(RoomOf(s, id), user, balance)])
  }

  function Clear(r: Room, user: string): Room
  {
    r.(wallets := r.wallets - {user}, opening := r.opening - {user},
       withdrawn := Bump(r.withdrawn, user, Get(r.wallets, user)), cleared := r.cleared + {user})
  }

  /** ClearSession: the caller that deletes the opening stake has claimed the session. */
  function ClearSession(s: Store, id: string, user: string): (Store, bool)
  {
    (s.(rooms := s.rooms[id := Clear(RoomOf(s, id), user)]), user in RoomOf(s, id).opening)
  }

  // ---------- round steps ----------

  function ZeroPools(count: int): map<int, int>
  {
    if count <= 0 then map[] else ZeroPools(count - 1)[count - 1 := 0]
  }

  function NewRound(room: string, count: int): Round
  {
    Round(room, Open, count, ZeroPools(count), 0, map[], {}, None)
  }

  function CreateRound(s: Store, id: string, room: string, count: int): Store
  {
    if MIN_OUTCOMES <= count <= MAX_OUTCOMES then s.(rounds := s.rounds[id := NewRound(room, count)]) else s
  }

  datatype LockReply = LockedNow | AlreadyLocked | RoundTerminal

  /** lock_round.lua; a round that does not exist has no status and counts as terminal. */
  function LockRound(s: Store, id: string): (Store, LockReply)
  {
    if id !in s.rounds then (s, RoundTerminal) else
    match s.rounds[id].status
    case Locked => (s, AlreadyLocked)
    case Open => (s.(rounds := s.rounds[id := s.rounds[id].(status := Locked)]), LockedNow)
    case _ => (s, RoundTerminal)
  }

  /** The guards of place_wager.lua after the replay check, in their order. */
  function WagerFault(s: Store, req: WagerRequest, late: bool): Option<WagerError>
  {
    if req.amount <= 0 then Some(BadStake)
    else if req.round !in s.rounds || s.rounds[req.round].status != Open then Some(PoolLocked)
    else if late then Some(PoolLocked)
    else if !ValidOutcome(req.outcome, s.rounds[req.round].outcomeCount) then Some(BadOutcome)
    else if RoomOf(s, req.room).host == Some(req.user) then Some(HostCannotBet)
    else if req.user !in RoomOf(s, req.room).wallets then Some(NotInRoom)
    else if RoomOf(s, req.room).wallets[req.user] < req.amount then Some(InsufficientFunds)
    else None
  }

  function Bet(r: Round, user: string, outcome: int, amount: int): Round
  {
    r.(pools := Bump(r.pools, outcome, amount), total := r.total + amount,
       wagers := Bump(r.wagers, (user, outcome), amount), bettors := r.bettors + {user})
  }

  function Debit(r: Room, user: string, amount: int): Room
  {
    r.(wallets := Bump(r.wallets, user, -amount))
  }

  /** The outcome pools in index order. */
  function PoolList(r: Round): seq<int>
  {
    if r.outcomeCount < 0 then [] else seq(r.outcomeCount, o => Get(r.pools, o))
  }

  /** What an accepted wager does, with the reply it caches. */
  function Accept(s: Store, req: WagerRequest): (Store, Reply)
    requires req.round in s.rounds
  {
    var room := Debit(RoomOf(s, req.room), req.user, req.amount);
    var round := Bet(s.rounds[req.round], req.user, req.outcome, req.amount);
    var balance := Get(room.wallets, req.user);
    var reply := Reply(balance, |round.bettors|, round.total, PoolList(round));
    (s.(rooms := s.rooms[req.room := room], rounds := s.rounds[req.round := round],
        idem := s.idem[req.key := reply],
        outbox := s.outbox + [WagerPlaced(req.room, req.round, req.user, req.key, req.outcome, req.amount, balance)]),
     reply)
  }

  predicate Takes(s: Store, req: WagerRequest, late: bool)
  {
    req.key !in s.idem && WagerFault(s, req, late).None?
  }

  function PlaceWager(s: Store, req: WagerRequest, late: bool): (Store, Result<Reply, WagerError>)
  {
    if req.key in s.idem then (s, Ok(s.idem[req.key]))
    else match WagerFault(s, req, late)
    case Some(e) => (s, Err(e))
    case None =>
      var (s', reply) := Accept(s, req);
      (s', Ok(reply))
  }

  // ---------- settling ----------

  function CreditAll(wallets: map<string, int>, payouts: seq<Payment>): map<string, int>
  {
    if payouts == [] then wallets else
    var p := payouts[|payouts| - 1];
    Bump(CreditAll(wallets, payouts[..|payouts| - 1]), p.user, p.amount)
  }

  /** What a call has decided to pay once it has its stakes. */
  datatype Plan = Plan(payouts: seq<Payment>, dust: int, refund: bool, winner: int)

  function PlanFor(aim: Aim, stakes: seq<Stake>): Plan
  {
    match aim
    case SettleOn(winner) =>
      var st := Settled(Unbounded, stakes, winner);
      Plan(st.payouts, st.dust, st.refunded, if st.refunded then -1 else winner)
    case RefundAll => Plan(Aggregate(stakes), 0, true, -1)
  }

  function TerminalEvent(c: Call): Event
    requires c.at.HasStakes?
  {
    var plan := PlanFor(c.aim, c.at.stakes);
    RoundSettled(c.at.room, c.round, c.key, plan.winner, Total(c.at.stakes), plan.dust, plan.payouts, plan.refund)
  }

  /**
   * settle_round.lua and refund_round.lua, with the values they are handed: compare-and-set the
   * status, credit, append.
   */
  function ApplyPlan(s: Store, id: string, room: string, key: string, total: int, plan: Plan): (Store, CallResult)
  {
    if id !in s.rounds then (s, NotLocked)
    else if IsTerminal(s.rounds[id].status) then (s, AlreadySettled)
    else if s.rounds[id].status != Locked then (s, NotLocked)
    else
      var hash := RoomOf(s, room);
      var round := s.rounds[id].(status := if plan.refund then Refunded else Resolved,
                                 resolvedOutcome := if plan.refund then None else Some(plan.winner));
      (s.(rooms := s.rooms[room := hash.(wallets := CreditAll(hash.wallets, plan.payouts))],
          rounds := s.rounds[id := round],
          outbox := s.outbox + [RoundSettled(room, id, key, plan.winner, total, plan.dust, plan.payouts, plan.refund)]),
       Applied)
  }

  /** A call that has its stakes runs its script with the plan it made from them. */
  function CompareAndSet(s: Store, c: Call): (Store, CallResult)
    requires c.at.HasStakes?
  {
    ApplyPlan(s, c.round, c.at.room, c.key, Total(c.at.stakes), PlanFor(c.aim, c.at.stakes))
  }

  function AfterStatusRead(s: Store, round: string): Progress
  {
    if round !in s.rounds then Done(NoRound) else
    match s.rounds[round].status
    case Locked => SawLocked(s.rounds[round].room, s.rounds[round].outcomeCount)
    case Open => Done(NotLocked)
    case _ => Done(AlreadySettled)
  }

  function AfterStakesRead(c: Call, stakes: seq<Stake>): Progress
    requires c.at.SawLocked?
  {
    if c.aim.SettleOn? && Settlements(Unbounded, stakes, c.aim.winner, c.at.count).Err? then Done(SettleFailed)
    else HasStakes(c.at.room, stakes)
  }

  function Advance(s: Store, id: nat, at: Progress): Store
    requires id in s.calls
  {
    s.(calls := s.calls[id := s.calls[id].(at := at)])
  }

  // ---------- the transition system ----------

  datatype Step =
    | DoCreateRoom(room: string, host: string)
    | DoJoin(room: string, user: string, balance: int)
    | DoClear(room: string, user: string)
    | DoCreateRound(round: string, room: string, count: int)
    | DoWager(req: WagerRequest, late: bool)
    | DoForget(key: string)
    | DoLock(round: string)
    | DoBegin(id: nat, aim: Aim, round: string, key: string)
    | DoReadStatus(id: nat)
    | DoReadStakes(id: nat, stakes: seq<Stake>)
    | DoApply(id: nat)

  ghost predicate CallKey(s: Store, key: string)
  {
    exists id :: id in s.calls && s.calls[id].key == key
  }

  ghost predicate EventKey(s: Store, key: string)
  {
    exists i :: 0 <= i < |s.outbox| && s.outbox[i].key == key
  }

  /**
   * What the callers of the store guarantee: identifiers are not empty, new round and call
   * identifiers are fresh, the key of a settle or refund call is freshly generated and never
   * given to a wager, and a wager goes to a round of its own room.
   */
  ghost predicate Enabled(s: Store, step: Step)
  {
    match step
    case DoCreateRoom(room, host) => true
    case DoJoin(room, user, _) => room != "" && user != ""
    case DoClear(room, user) => true
    case DoCreateRound(round, room, _) => round != "" && room != "" && round !in s.rounds
    case DoWager(req, _) =>
      && req.key != "" && req.room != "" && req.user != "" && !CallKey(s, req.key)
      && (req.round in s.rounds ==> s.rounds[req.round].room == req.room)
    case DoForget(key) => true
    case DoLock(_) => true
    case DoBegin(id, _, _, key) =>
      id !in s.calls && key != "" && key !in s.idem && key !in s.forgotten && !CallKey(s, key) && !EventKey(s, key)
    case DoReadStatus(id) => id in s.calls && s.calls[id].at.Started?
    case DoReadStakes(id, stakes) =>
      && id in s.calls && s.calls[id].at.SawLocked?
      && Lists(stakes, if s.calls[id].round in s.rounds then s.rounds[s.calls[id].round].wagers else map[])
    case DoApply(id) => id in s.calls && s.calls[id].at.HasStakes?
  }

  ghost function Next(s: Store, step: Step): Store
    requires Enabled(s, step)
  {
    match step
    case DoCreateRoom(room, host) => CreateRoom(s, room, host)
    case DoJoin(room, user, balance) => JoinRoom(s, room, user, balance)
    case DoClear(room, user) => ClearSession(s, room, user).0
    case DoCreateRound(round, room, count) => CreateRound(s, round, room, count)
    case DoWager(req, late) => PlaceWager(s, req, late).0
    case DoForget(key) => Forget(s, key)
    case DoLock(round) => LockRound(s, round).0
    case DoBegin(id, aim, round, key) => s.(calls := s.calls[id := Call(aim, round, key, Started)])
    case DoReadStatus(id) => Advance(s, id, AfterStatusRead(s, s.calls[id].round))
    case DoReadStakes(id, stakes) => Advance(s, id, AfterStakesRead(s.calls[id], stakes))
    case DoApply(id) =>
      var (s', result) := CompareAndSet(s, s.calls[id]);
      Advance(s', id, Done(result))
  }

  /** A cached wager reply expires. */
  function Forget(s: Store, key: string): Store
  {
    if key in s.idem then s.(idem := s.idem - {key}, forgotten := s.forgotten + {key}) else s
  }

  ghost predicate Run(states: seq<Store>, steps: seq<Step>)
  {
    && |states| == |steps| + 1 && states[0] == EMPTY
    && forall i {:trigger steps[i]} :: 0 <= i < |steps| ==>
         Enabled(states[i], steps[i]) && states[i + 1] == Next(states[i], steps[i])
  }
}
