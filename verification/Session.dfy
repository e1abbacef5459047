/** Ending a session: its net result is folded into the account, once, by whoever claims it. */
module Session {
  import opened Base
  import R = RedisStore
  import S = Store

  // ---------- account arithmetic ----------

  const STAKE_CAP_MULTIPLE := 3

  function AccountSessionBalance(account: int, buyIn: int): int
  {
    if account < buyIn * STAKE_CAP_MULTIPLE then account else buyIn * STAKE_CAP_MULTIPLE
  }

  function ApplySessionResult(account: int, start: int, end: int): int
  {
    if account + (end - start) < 0 then 0 else account + (end - start)
  }

  // ---------- one session and the calls that end it ----------

  /** How far an EndSession call has come, with the values it has read. */
  datatype Place =
    | Begun
    | SawAccount(balance: int)
    | SawOpening(balance: int, opening: int)
    | SawWallet(balance: int, opening: int, current: int)
    | Claimed(balance: int, opening: int, current: int)
    | Finished(folded: Option<int>)

  /** A call that claimed the session: the wallet it had read, and the wallet it removed. */
  datatype Fold = Fold(id: nat, read: int, removed: int)

  /**
   * One user's account and session in one room. `claims` lists the calls that claimed the
   * session, in order; `writes` those that wrote the account.
   */
  datatype State = State(
    account: int, opening: Option<int>, wallet: Option<int>, calls: map<nat, Place>,
    claims: seq<Fold>, writes: seq<nat>)

  datatype Step =
    | Join(buyIn: int)
    | WalletMoves(delta: int)
    | OtherWrite(balance: int)
    | Begin(id: nat)
    | ReadAccount(id: nat)
    | ReadOpening(id: nat)
    | ReadWallet(id: nat)
    | Claim(id: nat)
    | Write(id: nat)
    | Abandon(id: nat)

  predicate Enabled(s: State, step: Step)
  {
    match step
    case Join(buyIn) => buyIn > 0 && s.account > 0
    case WalletMoves(delta) => OrZero(s.wallet) + delta >= 0
    case OtherWrite(balance) => balance >= 0
    case Begin(id) => id !in s.calls
    case ReadAccount(id) => id in s.calls && s.calls[id].Begun?
    case ReadOpening(id) => id in s.calls && s.calls[id].SawAccount?
    case ReadWallet(id) => id in s.calls && s.calls[id].SawOpening?
    case Claim(id) => id in s.calls && s.calls[id].SawWallet?
    case Write(id) => id in s.calls && s.calls[id].Claimed?
    case Abandon(id) => id in s.calls
  }

  function OrZero(x: Option<int>): int { if x.Some? then x.value else 0 }

  function OrElse(x: Option<int>, y: int): Option<int> { if x.Some? then x else Some(y) }

  function Next(s: State, step: Step): State
    requires Enabled(s, step)
  {
    match step
    case Join(buyIn) =>
      var start := AccountSessionBalance(s.account, buyIn);
      s.(opening := OrElse(s.opening, start), wallet := OrElse(s.wallet, start))
    case WalletMoves(delta) => s.(wallet := Some(OrZero(s.wallet) + delta))
    case OtherWrite(balance) => s.(account := balance)
    case Begin(id) => s.(calls := s.calls[id := Begun])
    case ReadAccount(id) => s.(calls := s.calls[id := SawAccount(s.account)])
    case ReadOpening(id) =>
      var seen := if s.opening.None? then Finished(None) else SawOpening(s.calls[id].balance, s.opening.value);
      s.(calls := s.calls[id := seen])
    case ReadWallet(id) =>
      var c := s.calls[id];
      var seen := if s.wallet.None? then Finished(None) else SawWallet(c.balance, c.opening, s.wallet.value);
      s.(calls := s.calls[id := seen])
    case Claim(id) =>
      var c := s.calls[id];
      if s.opening.None? then s.(wallet := None, calls := s.calls[id := Finished(None)])
      else s.(opening := None, wallet := None, calls := s.calls[id := Claimed(c.balance, c.opening, c.current)],
              claims := s.claims + [Fold(id, c.current, OrZero(s.wallet))])
    case Write(id) =>
      var c := s.calls[id];
      var balance := ApplySessionResult(c.balance, c.opening, c.current);
      s.(account := balance, calls := s.calls[id := Finished(Some(balance))], writes := s.writes + [id])
    case Abandon(id) => s.(calls := s.calls[id := Finished(None)])
  }

  ghost predicate StepAt(states: seq<State>, steps: seq<Step>, i: nat)
    requires |states| == |steps| + 1 && i < |steps|
  {
    Enabled(states[i], steps[i]) && states[i + 1] == Next(states[i], steps[i])
  }

  ghost predicate Steps(states: seq<State>, steps: seq<Step>)
  {
    |states| == |steps| + 1 && forall i :: 0 <= i < |steps| ==> StepAt(states, steps, i)
  }

  // ---------- at most one call claims ----------

  function Count(x: Option<int>): nat { if x.Some? then 1 else 0 }

  /** Every claim uses up an opening stake, and only a join provides a new one. */
  lemma {:induction false} OneClaimPerJoin(states: seq<State>, steps: seq<Step>, i: nat, n: nat)
    requires Steps(states, steps) && i <= n < |states| && forall k :: i <= k < n ==> !steps[k].Join?
    ensures |states[n].claims| + Count(states[n].opening) == |states[i].claims| + Count(states[i].opening)
  {
    if i < n {
      OneClaimPerJoin(states, steps, i, n - 1);
      assert StepAt(states, steps, n - 1);
    }
  }

  // ---------- what the fold does to the account ----------

  /** What a call knows while the session it is ending opened with `opening` from an account of `account`. */
  ghost predicate PlaceOk(s: State, id: nat, account: int, opening: int)
    requires id in s.calls
  {
    match s.calls[id]
    case Begun => true
    case Finished(_) => true
    case SawAccount(b) => s.claims == [] ==> b == account
    case SawOpening(b, o) => b == account && o == opening
    case SawWallet(b, o, w) => b == account && o == opening && w >= 0
    case Claimed(b, o, w) =>
      && b == account && o == opening && w >= 0
      && |s.claims| == 1 && s.claims[0].id == id && s.claims[0].read == w && s.writes == []
  }

  ghost predicate FoldInv(s: State, account: int, opening: int)
  {
    && |s.writes| <= |s.claims| <= 1 && OrZero(s.wallet) >= 0
    && (if s.claims == [] then s.opening == Some(opening) else s.opening == None && s.claims[0].read >= 0)
    && s.account == (if s.writes == [] then account else account + (s.claims[0].read - opening))
    && forall id :: id in s.calls ==> PlaceOk(s, id, account, opening)
  }

  lemma StepKeepsFold(s: State, step: Step, account: int, opening: int)
    requires FoldInv(s, account, opening) && opening <= account
    requires Enabled(s, step) && !step.Join? && !step.OtherWrite?
    ensures FoldInv(Next(s, step), account, opening)
  {
    var s' := Next(s, step);
    assert step.Write? ==> PlaceOk(s, step.id, account, opening);
    assert step.Claim? ==> PlaceOk(s, step.id, account, opening);
    forall id | id in s'.calls ensures PlaceOk(s', id, account, opening) {
      assert id in s.calls ==> PlaceOk(s, id, account, opening);
    }
  }

  /** A freshly joined session, with nobody ending it yet. */
  function Joined(account: int, buyIn: int): State
  {
    var start := AccountSessionBalance(account, buyIn);
    State(account, Some(start), Some(start), map[], [], [])
  }

  ghost predicate Undisturbed(steps: seq<Step>)
  {
    forall k :: 0 <= k < |steps| ==> !steps[k].Join? && !steps[k].OtherWrite?
  }

  lemma {:induction false} FoldHolds(states: seq<State>, steps: seq<Step>, account: int, buyIn: int, n: nat)
    requires Steps(states, steps) && states[0] == Joined(account, buyIn) && Undisturbed(steps) && n < |states|
    requires account > 0 && buyIn > 0
    ensures FoldInv(states[n], account, AccountSessionBalance(account, buyIn))
  {
    if n > 0 {
      FoldHolds(states, steps, account, buyIn, n - 1);
      assert StepAt(states, steps, n - 1);
      StepKeepsFold(states[n - 1], steps[n - 1], account, AccountSessionBalance(account, buyIn));
    }
  }

  /**
   * However many EndSession calls interleave on one session, with no rejoin and no other writer
   * of the account: at most one claims and at most one writes; until then the account stays as it
   * was, and from then on it has changed by exactly the wallet that was read less the opening
   * stake. The opening stake was no more than the account and three buy-ins, so the zero floor
   * never comes into it.
   */
  lemma FoldsOnceExactly(states: seq<State>, steps: seq<Step>, account: int, buyIn: int, n: nat)
    requires Steps(states, steps) && states[0] == Joined(account, buyIn) && Undisturbed(steps) && n < |states|
    requires account > 0 && buyIn > 0
    ensures var s, start := states[n], AccountSessionBalance(account, buyIn);
            && 0 < start <= account && start <= 3 * buyIn && (start == account || start == 3 * buyIn)
            && |s.writes| <= |s.claims| <= 1 && s.account >= 0
            && (s.writes == [] ==> s.account == account)
            && (s.writes != [] ==> s.claims[0].read >= 0 && s.account == account + (s.claims[0].read - start))
  {
    FoldHolds(states, steps, account, buyIn, n);
  }

  // ---------- tokens that move between the read and the claim ----------

  /** What the wallet moves among these steps add up to. */
  function Moved(steps: seq<Step>): int
  {
    if steps == [] then 0 else
    var last := steps[|steps| - 1];
    Moved(steps[..|steps| - 1]) + if last.WalletMoves? then last.delta else 0
  }

  /** While the session is open, its wallet changes by what moves. */
  lemma {:induction false} WalletIsMoved(states: seq<State>, steps: seq<Step>, account: int, buyIn: int, i: nat, j: nat)
    requires Steps(states, steps) && states[0] == Joined(account, buyIn) && Undisturbed(steps) && i <= j < |states|
    requires account > 0 && buyIn > 0 && states[j].claims == []
    ensures OrZero(states[j].wallet) == OrZero(states[i].wallet) + Moved(steps[i..j])
  {
    if i < j {
      FoldHolds(states, steps, account, buyIn, j - 1);
      assert StepAt(states, steps, j - 1);
      WalletIsMoved(states, steps, account, buyIn, i, j - 1);
      assert steps[i..j][..j - 1 - i] == steps[i..j - 1];
    }
  }

  /** What a call saw of the wallet it keeps until it claims, finishes or is abandoned. */
  lemma {:induction false} SightStays(states: seq<State>, steps: seq<Step>, i: nat, j: nat, id: nat)
    requires Steps(states, steps) && i < j < |states| && steps[i] == ReadWallet(id)
    ensures id in states[j].calls
    ensures states[j].calls[id].SawWallet? ==> states[i].wallet == Some(states[j].calls[id].current)
    ensures states[j].calls[id].SawWallet? || states[j].calls[id].Claimed? || states[j].calls[id].Finished?
  {
    assert StepAt(states, steps, j - 1);
    if i < j - 1 {
      SightStays(states, steps, i, j - 1, id);
    }
  }

  /** The read and the claim of the call that claims the session, before the moment `n`. */
  ghost predicate ClaimedAt(states: seq<State>, steps: seq<Step>, i: nat, j: nat, n: nat, id: nat)
    requires |states| == |steps| + 1
  {
    i < j < n < |states| && steps[i] == ReadWallet(id) && steps[j] == Claim(id) && states[j].opening.Some?
  }

  lemma {:induction false} ClaimsStay(states: seq<State>, steps: seq<Step>, j: nat, n: nat)
    requires Steps(states, steps) && j <= n < |states|
    ensures states[j].claims <= states[n].claims
  {
    if j < n {
      ClaimsStay(states, steps, j, n - 1);
      assert StepAt(states, steps, n - 1);
    }
  }

  /**
   * The account has changed by the wallet that was removed if and only if the tokens that moved
   * between the claiming call's read and its claim cancel out: the others are lost, or made.
   */
  lemma FoldMatchesWalletIff(states: seq<State>, steps: seq<Step>, account: int, buyIn: int, i: nat, j: nat, n: nat,
                             id: nat)
    requires Steps(states, steps) && states[0] == Joined(account, buyIn) && Undisturbed(steps)
    requires account > 0 && buyIn > 0 && ClaimedAt(states, steps, i, j, n, id) && states[n].writes != []
    ensures states[n].account == account + (OrZero(states[j].wallet) - AccountSessionBalance(account, buyIn))
       <==> Moved(steps[i + 1..j]) == 0
  {
    FoldHolds(states, steps, account, buyIn, n);
    FoldHolds(states, steps, account, buyIn, j);
    assert StepAt(states, steps, i) && StepAt(states, steps, j);
    SightStays(states, steps, i, j, id);
    ClaimsStay(states, steps, j + 1, n);
    assert states[j + 1].claims[0] == states[n].claims[0];
    WalletIsMoved(states, steps, account, buyIn, i + 1, j);
  }

  lemma {:induction false} SightHasARead(states: seq<State>, steps: seq<Step>, n: nat, id: nat)
    requires Steps(states, steps) && states[0].calls == map[] && n < |states|
    requires id in states[n].calls && states[n].calls[id].SawWallet?
    ensures exists i :: 0 <= i < n && steps[i] == ReadWallet(id)
  {
    assert n > 0 && StepAt(states, steps, n - 1);
    if steps[n - 1] != ReadWallet(id) {
      SightHasARead(states, steps, n - 1, id);
    }
  }

  /** A claimed session has a claiming call, which read the wallet before. */
  lemma {:induction false} ClaimHasSteps(states: seq<State>, steps: seq<Step>, n: nat)
    requires Steps(states, steps) && states[0].calls == map[] && states[0].claims == [] && n < |states|
             && states[n].claims != []
    ensures exists i, j, id :: ClaimedAt(states, steps, i, j, n, id)
  {
    assert n > 0 && StepAt(states, steps, n - 1);
    if states[n - 1].claims == [] {
      var id := steps[n - 1].id;
      SightHasARead(states, steps, n - 1, id);
      var i :| 0 <= i < n - 1 && steps[i] == ReadWallet(id);
      assert ClaimedAt(states, steps, i, n - 1, n, id);
    } else {
      ClaimHasSteps(states, steps, n - 1);
      var i, j, id :| ClaimedAt(states, steps, i, j, n - 1, id);
      assert ClaimedAt(states, steps, i, j, n, id);
    }
  }

  function WinningStep(i: nat): Step
  {
    match i
    case 0 => Begin(0)
    case 1 => ReadAccount(0)
    case 2 => ReadOpening(0)
    case 3 => ReadWallet(0)
    case 4 => WalletMoves(5)
    case 5 => Claim(0)
    case _ => Write(0)
  }

  function WinningState(i: nat): State
  {
    match i
    case 0 => Joined(1000, 100)
    case 1 => Joined(1000, 100).(calls := map[0 := Begun])
    case 2 => Joined(1000, 100).(calls := map[0 := SawAccount(1000)])
    case 3 => Joined(1000, 100).(calls := map[0 := SawOpening(1000, 300)])
    case 4 => Joined(1000, 100).(calls := map[0 := SawWallet(1000, 300, 300)])
    case 5 => State(1000, Some(300), Some(305), map[0 := SawWallet(1000, 300, 300)], [], [])
    case 6 => State(1000, None, None, map[0 := Claimed(1000, 300, 300)], [Fold(0, 300, 305)], [])
    case _ => State(1000, None, None, map[0 := Finished(Some(1000))], [Fold(0, 300, 305)], [0])
  }

  lemma WinningGoes(i: nat)
    requires i < 7
    ensures Enabled(WinningState(i), WinningStep(i)) && WinningState(i + 1) == Next(WinningState(i), WinningStep(i))
  {
    assert i == 0 || i == 1 || i == 2 || i == 3 || i == 4 || i == 5 || i == 6;
  }

  /** A run in which five tokens won between the read and the claim are lost. */
  lemma WinningsCanBeLost()
    ensures exists states: seq<State>, steps: seq<Step> ::
              && Steps(states, steps) && states[0] == Joined(1000, 100) && Undisturbed(steps) && |steps| == 7
              && states[7].writes == [0] && states[7].claims == [Fold(0, 300, 305)] && states[7].account == 1000
  {
    var states := seq(8, i requires 0 <= i < 8 => WinningState(i));
    var steps := seq(7, i requires 0 <= i < 7 => WinningStep(i));
    forall i | 0 <= i < 7 ensures StepAt(states, steps, i) { WinningGoes(i); }
    assert Steps(states, steps);
  }

  // ---------- other writers of the account ----------

  ghost predicate NoJoins(steps: seq<Step>)
  {
    forall k :: 0 <= k < |steps| ==> !steps[k].Join?
  }

  /** At most one call ever holds the session's claim, and it writes once. */
  ghost predicate OneWriter(s: State)
  {
    && |s.writes| <= |s.claims| <= 1 && (s.claims == [] ==> s.opening.Some?) && (s.claims != [] ==> s.opening.None?)
    && forall id :: id in s.calls && s.calls[id].Claimed? ==> |s.claims| == 1 && s.claims[0].id == id && s.writes == []
  }

  lemma {:induction false} OneWriterHolds(states: seq<State>, steps: seq<Step>, account: int, buyIn: int, n: nat)
    requires Steps(states, steps) && states[0] == Joined(account, buyIn) && NoJoins(steps) && n < |states|
    ensures OneWriter(states[n])
  {
    if n > 0 {
      OneWriterHolds(states, steps, account, buyIn, n - 1);
      assert StepAt(states, steps, n - 1);
    }
  }

  /** What other writers leave in an account that held `account`. */
  function Rewritten(account: int, steps: seq<Step>): int
  {
    if steps == [] then account else
    var last := steps[|steps| - 1];
    if last.OtherWrite? then last.balance else Rewritten(account, steps[..|steps| - 1])
  }

  /** Until the session is folded, only other writers change the account. */
  lemma {:induction false} AccountIsRewritten(states: seq<State>, steps: seq<Step>, i: nat, j: nat)
    requires Steps(states, steps) && i <= j < |states| && states[j].writes == []
    ensures states[j].account == Rewritten(states[i].account, steps[i..j])
  {
    if i < j {
      assert StepAt(states, steps, j - 1);
      AccountIsRewritten(states, steps, i, j - 1);
      assert steps[i..j][..j - 1 - i] == steps[i..j - 1];
    }
  }

  /** The balance a call read stays with it. */
  lemma {:induction false} BalanceStays(states: seq<State>, steps: seq<Step>, i: nat, j: nat, id: nat)
    requires Steps(states, steps) && i < j < |states| && steps[i] == ReadAccount(id)
    ensures id in states[j].calls && !states[j].calls[id].Begun?
    ensures !states[j].calls[id].Finished? ==> states[j].calls[id].balance == states[i].account
  {
    assert StepAt(states, steps, j - 1);
    if i < j - 1 {
      BalanceStays(states, steps, i, j - 1, id);
    }
  }

  /**
   * Writing the account is not guarded by a compare-and-set. With other writers about, the write
   * folds the session into what the account holds at that moment if and only if the writes since
   * the call read it left the same balance, or one that, like it, the session's loss wipes out.
   */
  lemma FoldMatchesAccountIff(states: seq<State>, steps: seq<Step>, account: int, buyIn: int, i: nat, j: nat, id: nat)
    requires Steps(states, steps) && states[0] == Joined(account, buyIn) && NoJoins(steps)
    requires i < j < |steps| && steps[i] == ReadAccount(id) && steps[j] == Write(id)
    ensures id in states[j].calls && states[j].calls[id].Claimed?
    ensures var c, held := states[j].calls[id], Rewritten(states[i].account, steps[i + 1..j]);
            var lost := c.opening - c.current;
            states[j + 1].account == ApplySessionResult(states[j].account, c.opening, c.current)
            <==> held == states[i].account || (held <= lost && states[i].account <= lost)
  {
    assert StepAt(states, steps, i) && StepAt(states, steps, j);
    OneWriterHolds(states, steps, account, buyIn, j);
    BalanceStays(states, steps, i, j, id);
    AccountIsRewritten(states, steps, i + 1, j);
  }

  function OverwritingStep(i: nat): Step
  {
    match i
    case 0 => Begin(0)
    case 1 => ReadAccount(0)
    case 2 => OtherWrite(1500)
    case 3 => ReadOpening(0)
    case 4 => ReadWallet(0)
    case 5 => Claim(0)
    case _ => Write(0)
  }

  function OverwritingState(i: nat): State
  {
    match i
    case 0 => Joined(1000, 100)
    case 1 => Joined(1000, 100).(calls := map[0 := Begun])
    case 2 => Joined(1000, 100).(calls := map[0 := SawAccount(1000)])
    case 3 => State(1500, Some(300), Some(300), map[0 := SawAccount(1000)], [], [])
    case 4 => State(1500, Some(300), Some(300), map[0 := SawOpening(1000, 300)], [], [])
    case 5 => State(1500, Some(300), Some(300), map[0 := SawWallet(1000, 300, 300)], [], [])
    case 6 => State(1500, None, None, map[0 := Claimed(1000, 300, 300)], [Fold(0, 300, 300)], [])
    case _ => State(1000, None, None, map[0 := Finished(Some(1000))], [Fold(0, 300, 300)], [0])
  }

  lemma OverwritingGoes(i: nat)
    requires i < 7
    ensures Enabled(OverwritingState(i), OverwritingStep(i))
            && OverwritingState(i + 1) == Next(OverwritingState(i), OverwritingStep(i))
  {
    assert i == 0 || i == 1 || i == 2 || i == 3 || i == 4 || i == 5 || i == 6;
  }

  /** A run in which another writer's 500 tokens are overwritten. */
  lemma OtherWritesCanBeLost()
    ensures exists states: seq<State>, steps: seq<Step> ::
              && Steps(states, steps) && states[0] == Joined(1000, 100) && NoJoins(steps) && |steps| == 7
              && steps[2] == OtherWrite(1500) && states[7].writes == [0] && states[7].account == 1000
  {
    var states := seq(8, i requires 0 <= i < 8 => OverwritingState(i));
    var steps := seq(7, i requires 0 <= i < 7 => OverwritingStep(i));
    forall i | 0 <= i < 7 ensures StepAt(states, steps, i) { OverwritingGoes(i); }
    assert Steps(states, steps);
  }

  // ---------- the service's own method ----------

  datatype EndError = UnknownUser

  class Service {
    const store: R.RedisStore
    var accounts: map<string, int>

    constructor (store: R.RedisStore, accounts: map<string, int>)
      ensures this.store == store && this.accounts == accounts
    {
      this.store, this.accounts := store, accounts;
    }

    /** Whether the account holder has a session to end in the room. */
    predicate Open(room: string, user: string)
      reads this, store
    {
      user in accounts && room in store.rooms && user in store.rooms[room].opening && user in store.rooms[room].wallets
    }

    /**
     * With nothing else going on: a guest, an unknown user and a user without a session change
     * nothing; a session is folded into the account and is gone, so a second call finds none.
     */
    method EndSession(room: string, user: string, guest: bool) returns (r: Result<int, EndError>)
      requires store.Valid()
      modifies this`accounts, store
      ensures store.Valid() && store.exact == old(store.exact) && (r.Err? <==> !guest && user !in old(accounts))
      ensures guest || !old(Open(room, user)) ==> accounts == old(accounts) && store.State() == old(store.State())
      ensures (guest || (user in old(accounts) && !old(Open(room, user)))) ==> r == Ok(0)
      ensures !guest && old(Open(room, user)) ==>
                var net := old(store.rooms[room].wallets[user] - store.rooms[room].opening[user]);
                r == Ok(if old(accounts)[user] + net < 0 then 0 else old(accounts)[user] + net)
      ensures !guest && old(Open(room, user)) ==>
                && accounts == old(accounts)[user := r.value] && !Open(room, user)
                && store.State() == S.ClearSession(old(store.State()), room, user).0
    {
      if guest {
        return Ok(0);
      }
      if user !in accounts {
        return Err(UnknownUser);
      }
      if room !in store.rooms || user !in store.rooms[room].opening || user !in store.rooms[room].wallets {
        return Ok(0);
      }
      var account, opening, current := accounts[user], store.rooms[room].opening[user], store.rooms[room].wallets[user];
      var claimed := store.ClearSession(room, user);
      if !claimed {
        return Ok(0);
      }
      var balance := ApplySessionResult(account, opening, current);
      accounts := accounts[user := balance];
      r := Ok(balance);
    }
  }
}
