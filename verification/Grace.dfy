/**
 * The disconnect grace window: every schedule starts a goroutine that waits, and folds the session
 * only if its own channel is still the pending one when it re-checks under the lock.
 */
module Grace {
  import opened Base
  import opened Keys

  /** Where a goroutine is: waiting in its select, past the timer, gone, past the re-check, or done folding. */
  datatype Place = Waiting | Elapsed | Gone | Passed | Ended

  datatype Routine = Routine(key: string, place: Place)

  /** What was asked for, in lock order; a schedule's number is its channel and its goroutine. */
  datatype Op = Scheduled(key: string, id: nat) | Resumed(key: string)

  /** `closes` lists channels in the order they were closed, `folds` goroutines that folded. */
  datatype State = State(
    pending: map<string, nat>, closes: seq<nat>, routines: seq<Routine>, ops: seq<Op>, folds: seq<nat>, stopped: bool)

  const IDLE := State(map[], [], [], [], [], false)

  datatype Step =
    | Schedule(room: string, user: string, guest: bool)
    | Resume(room: string, user: string)
    | TimerFires(id: nat)
    | SeesClosed(id: nat)
    | SeesShutdown(id: nat)
    | Check(id: nat)
    | Fold(id: nat)
    | Shutdown

  predicate Enabled(g: State, step: Step)
  {
    match step
    case TimerFires(id) => id < |g.routines| && g.routines[id].place == Waiting
    case SeesClosed(id) => id < |g.routines| && g.routines[id].place == Waiting && id in g.closes
    case SeesShutdown(id) => id < |g.routines| && g.routines[id].place == Waiting && g.stopped
    case Check(id) => id < |g.routines| && g.routines[id].place == Elapsed
    case Fold(id) => id < |g.routines| && g.routines[id].place == Passed
    case _ => true
  }

  function Move(g: State, id: nat, place: Place): seq<Routine>
    requires id < |g.routines|
  {
    g.routines[id := g.routines[id].(place := place)]
  }

  function Next(g: State, step: Step): State
    requires Enabled(g, step)
  {
    match step
    case Schedule(room, user, guest) =>
      if guest then g else
      var key, id := SessionKey(room, user), |g.routines|;
      g.(closes := if key in g.pending then g.closes + [g.pending[key]] else g.closes,
         pending := g.pending[key := id], routines := g.routines + [Routine(key, Waiting)],
         ops := g.ops + [Scheduled(key, id)])
    case Resume(room, user) =>
      var key := SessionKey(room, user);
      g.(closes := if key in g.pending then g.closes + [g.pending[key]] else g.closes,
         pending := g.pending - {key}, ops := g.ops + [Resumed(key)])
    case TimerFires(id) => g.(routines := Move(g, id, Elapsed))
    case SeesClosed(id) => g.(routines := Move(g, id, Gone))
    case SeesShutdown(id) => g.(routines := Move(g, id, Gone))
    case Check(id) =>
      var key := g.routines[id].key;
      if key in g.pending && g.pending[key] == id
      then g.(pending := g.pending - {key}, routines := Move(g, id, Passed))
      else g.(routines := Move(g, id, Gone))
    case Fold(id) => g.(routines := Move(g, id, Ended), folds := g.folds + [id])
    case Shutdown => g.(stopped := true)
  }

  /** The last schedule or resume for a key. */
  function Latest(ops: seq<Op>, key: string): Option<Op>
  {
    if ops == [] then None
    else if ops[|ops| - 1].key == key then Some(ops[|ops| - 1])
    else Latest(ops[..|ops| - 1], key)
  }

  ghost predicate Once(ids: seq<nat>)
  {
    forall i, j :: 0 <= i < j < |ids| ==> ids[i] != ids[j]
  }

  // ---------- the invariant ----------

  /** Past the re-check: about to fold, or done with it. */
  predicate Through(place: Place)
  {
    place == Passed || place == Ended
  }

  /** The pending channel of a key is open, its goroutine has not passed, and nothing came later. */
  ghost predicate PendingOk(g: State, key: string)
  {
    key in g.pending ==>
      && g.pending[key] < |g.routines| && g.routines[g.pending[key]].key == key
      && !Through(g.routines[g.pending[key]].place) && g.pending[key] !in g.closes
      && Latest(g.ops, key) == Some(Scheduled(key, g.pending[key]))
  }

  /** The latest schedule of a key is still pending, unless its goroutine has passed. */
  ghost predicate LatestOk(g: State, key: string)
  {
    var op := Latest(g.ops, key);
    op.Some? && op.value.Scheduled? ==>
      && op.value.id < |g.routines|
      && ((key in g.pending && g.pending[key] == op.value.id) || Through(g.routines[op.value.id].place))
  }

  ghost predicate ClosesOk(g: State)
  {
    Once(g.closes) && forall id :: id in g.closes ==> id < |g.routines|
  }

  ghost predicate FoldsOk(g: State)
  {
    Once(g.folds) && forall id: nat :: id in g.folds <==> id < |g.routines| && g.routines[id].place == Ended
  }

  ghost predicate Inv(g: State)
  {
    ClosesOk(g) && FoldsOk(g) && forall key :: PendingOk(g, key) && LatestOk(g, key)
  }

  lemma LatestSnoc(ops: seq<Op>, op: Op, key: string)
    ensures Latest(ops + [op], key) == if op.key == key then Some(op) else Latest(ops, key)
  {
    assert (ops + [op])[..|ops|] == ops;
  }

  lemma OnceSnoc(ids: seq<nat>, id: nat)
    requires Once(ids) && id !in ids
    ensures Once(ids + [id])
  {
  }

  lemma AskKeepsInv(g: State, step: Step)
    requires Inv(g) && (step.Schedule? || step.Resume?)
    ensures Inv(Next(g, step))
  {
    var g' := Next(g, step);
    if g' != g {
      var key := SessionKey(step.room, step.user);
      assert PendingOk(g, key);
      if key in g.pending { OnceSnoc(g.closes, g.pending[key]); }
      forall k ensures PendingOk(g', k) && LatestOk(g', k) {
        LatestSnoc(g.ops, g'.ops[|g.ops|], k);
        assert PendingOk(g, k) && LatestOk(g, k) && PendingOk(g, key);
      }
    }
  }

  lemma CheckKeepsInv(g: State, id: nat)
    requires Inv(g) && Enabled(g, Check(id))
    ensures Inv(Next(g, Check(id)))
  {
    var g', key := Next(g, Check(id)), g.routines[id].key;
    forall k ensures PendingOk(g', k) && LatestOk(g', k) {
      assert PendingOk(g, k) && LatestOk(g, k) && PendingOk(g, key) && LatestOk(g, key);
    }
  }

  lemma FoldKeepsInv(g: State, id: nat)
    requires Inv(g) && Enabled(g, Fold(id))
    ensures Inv(Next(g, Fold(id)))
  {
    var g' := Next(g, Fold(id));
    OnceSnoc(g.folds, id);
    forall k ensures PendingOk(g', k) && LatestOk(g', k) {
      assert PendingOk(g, k) && LatestOk(g, k);
    }
  }

  lemma WaitKeepsInv(g: State, step: Step)
    requires Inv(g) && Enabled(g, step)
             && (step.TimerFires? || step.SeesClosed? || step.SeesShutdown? || step.Shutdown?)
    ensures Inv(Next(g, step))
  {
    var g' := Next(g, step);
    forall k ensures PendingOk(g', k) && LatestOk(g', k) {
      assert PendingOk(g, k) && LatestOk(g, k);
    }
  }

  lemma StepKeepsInv(g: State, step: Step)
    requires Inv(g) && Enabled(g, step)
    ensures Inv(Next(g, step))
  {
    match step
    case Schedule(_, _, _) => AskKeepsInv(g, step);
    case Resume(_, _) => AskKeepsInv(g, step);
    case Check(id) => CheckKeepsInv(g, id);
    case Fold(id) => FoldKeepsInv(g, id);
    case _ => WaitKeepsInv(g, step);
  }

  // ---------- runs ----------

  ghost predicate StepAt(states: seq<State>, steps: seq<Step>, i: nat)
    requires |states| == |steps| + 1 && i < |steps|
  {
    Enabled(states[i], steps[i]) && states[i + 1] == Next(states[i], steps[i])
  }

  ghost predicate Run(states: seq<State>, steps: seq<Step>)
  {
    && |states| == |steps| + 1 && states[0] == IDLE
    && forall i :: 0 <= i < |steps| ==> StepAt(states, steps, i)
  }

  lemma {:induction false} EveryStateIsOk(states: seq<State>, steps: seq<Step>, n: nat)
    requires Run(states, steps) && n < |states|
    ensures Inv(states[n])
  {
    if n > 0 {
      EveryStateIsOk(states, steps, n - 1);
      assert StepAt(states, steps, n - 1);
      StepKeepsInv(states[n - 1], steps[n - 1]);
    }
  }

  /** No channel is ever closed twice, and no schedule folds twice. */
  lemma ClosedAndFoldedOnce(states: seq<State>, steps: seq<Step>, n: nat)
    requires Run(states, steps) && n < |states|
    ensures Once(states[n].closes) && Once(states[n].folds)
  {
    EveryStateIsOk(states, steps, n);
  }

  /**
   * Every window there ever was has been asked for, by a schedule for its key that was not a
   * guest's: guests are never scheduled.
   */
  lemma {:induction false} GuestsHaveNoWindow(states: seq<State>, steps: seq<Step>, n: nat, id: nat)
    requires Run(states, steps) && n < |states| && id < |states[n].routines|
    ensures exists i :: 0 <= i < n && AsksFor(states[i], steps[i], id, states[n].routines[id].key)
  {
    if n > 0 {
      assert StepAt(states, steps, n - 1);
      if id < |states[n - 1].routines| {
        GuestsHaveNoWindow(states, steps, n - 1, id);
      } else {
        assert AsksFor(states[n - 1], steps[n - 1], id, states[n].routines[id].key);
      }
    }
  }

  predicate AsksFor(g: State, step: Step, id: nat, key: string)
  {
    step.Schedule? && !step.guest && SessionKey(step.room, step.user) == key && id == |g.routines|
  }

  ghost predicate Passes(g: State, step: Step)
  {
    step.Check? && Enabled(g, step) && Next(g, step).routines[step.id].place == Passed
  }

  /**
   * A goroutine passes its re-check exactly when its own schedule is the latest thing that
   * happened to its key.
   */
  lemma PassesIffLatest(states: seq<State>, steps: seq<Step>, n: nat)
    requires Run(states, steps) && n < |steps| && steps[n].Check?
    ensures var g, id := states[n], steps[n].id;
            id < |g.routines| &&
            (Passes(g, steps[n]) <==> Latest(g.ops, g.routines[id].key) == Some(Scheduled(g.routines[id].key, id)))
  {
    EveryStateIsOk(states, steps, n);
    assert StepAt(states, steps, n);
    var g, id := states[n], steps[n].id;
    assert PendingOk(g, g.routines[id].key) && LatestOk(g, g.routines[id].key);
  }

  ghost predicate IsLatest(g: State, id: nat)
  {
    id < |g.routines| && Latest(g.ops, g.routines[id].key) == Some(Scheduled(g.routines[id].key, id))
  }

  /** A schedule that is not the latest for its key never becomes it again. */
  lemma {:induction false} StaysSuperseded(states: seq<State>, steps: seq<Step>, i: nat, n: nat, id: nat)
    requires Run(states, steps) && i <= n < |states| && id < |states[i].routines| && !IsLatest(states[i], id)
    ensures id < |states[n].routines| && !IsLatest(states[n], id)
  {
    if i < n {
      StaysSuperseded(states, steps, i, n - 1, id);
      assert StepAt(states, steps, n - 1);
    }
  }

  /** After a player resumes, nothing that was scheduled before passes its re-check any more. */
  lemma NothingPassesAfterResume(states: seq<State>, steps: seq<Step>, i: nat, n: nat, id: nat)
    requires Run(states, steps) && i < n < |steps| && steps[n] == Check(id) && Resumes(states[i], steps[i], id)
    ensures !Passes(states[n], steps[n])
  {
    assert StepAt(states, steps, i);
    ResumeSupersedes(states[i], steps[i], id);
    StaysSuperseded(states, steps, i + 1, n, id);
    PassesIffLatest(states, steps, n);
  }

  // ---------- the gap between the re-check and the fold ----------

  /** A resume of the session that goroutine `id` was scheduled to end. */
  ghost predicate Resumes(g: State, step: Step, id: nat)
  {
    step.Resume? && id < |g.routines| && g.routines[id].key == SessionKey(step.room, step.user)
  }

  lemma ResumeSupersedes(g: State, step: Step, id: nat)
    requires Resumes(g, step, id)
    ensures var g' := Next(g, step); !IsLatest(g', id) && g'.routines == g.routines && g'.folds == g.folds
  {
    LatestSnoc(g.ops, Resumed(g.routines[id].key), g.routines[id].key);
  }

  /** Between `g` and `g'` the goroutine folded, or it may do so next. */
  predicate FoldsYet(g: State, g': State, id: nat)
  {
    (id in g'.folds && id !in g.folds) || Enabled(g', Fold(id))
  }

  lemma {:induction false} FoldsIffPassed(states: seq<State>, steps: seq<Step>, i: nat, n: nat, id: nat)
    requires Run(states, steps) && i <= n < |states| && id < |states[i].routines| && !IsLatest(states[i], id)
    ensures FoldsYet(states[i], states[n], id) <==> states[i].routines[id].place == Passed
  {
    if i < n {
      FoldsIffPassed(states, steps, i, n - 1, id);
      assert StepAt(states, steps, n - 1);
      StaysSuperseded(states, steps, i, n - 1, id);
      EveryStateIsOk(states, steps, i);
      EveryStateIsOk(states, steps, n - 1);
      if steps[n - 1] == Check(id) { PassesIffLatest(states, steps, n - 1); }
    }
  }

  /**
   * The lock is released between the re-check and the fold, so a resume does not stop everything:
   * at any moment after it, an earlier schedule has folded since or may fold next if and only if
   * its goroutine was past the re-check when the resume came.
   */
  lemma FoldsAfterResumeIff(states: seq<State>, steps: seq<Step>, i: nat, n: nat, id: nat)
    requires Run(states, steps) && i < n < |states| && Resumes(states[i], steps[i], id)
    ensures FoldsYet(states[i], states[n], id) <==> states[i].routines[id].place == Passed
  {
    assert StepAt(states, steps, i);
    ResumeSupersedes(states[i], steps[i], id);
    FoldsIffPassed(states, steps, i + 1, n, id);
  }

  /** A resume that finds nothing pending, and right after it the fold of the session it resumed. */
  ghost predicate FoldsTooLate(states: seq<State>, steps: seq<Step>, i: nat, id: nat)
  {
    && Run(states, steps) && i + 1 < |steps| && Resumes(states[i], steps[i], id)
    && states[i].routines[id].key !in states[i].pending && steps[i + 1] == Fold(id) && id in states[i + 2].folds
  }

  /** Such a run: the session is folded although its player is back. */
  lemma ResumeCanComeTooLate(room: string, user: string)
    ensures exists states, steps :: FoldsTooLate(states, steps, 3, 0)
  {
    var key := SessionKey(room, user);
    var asked := State(map[key := 0], [], [Routine(key, Waiting)], [Scheduled(key, 0)], [], false);
    var elapsed := asked.(routines := [Routine(key, Elapsed)]);
    var passed := asked.(pending := map[], routines := [Routine(key, Passed)]);
    var resumed := passed.(ops := [Scheduled(key, 0), Resumed(key)]);
    var folded := resumed.(routines := [Routine(key, Ended)], folds := [0]);
    var states := [IDLE, asked, elapsed, passed, resumed, folded];
    var steps := [Schedule(room, user, false), TimerFires(0), Check(0), Resume(room, user), Fold(0)];
    assert Next(elapsed, Check(0)) == passed;
    assert Next(passed, Resume(room, user)) == resumed;
    assert forall i :: 0 <= i < |steps| ==> StepAt(states, steps, i);
    assert FoldsTooLate(states, steps, 3, 0);
  }

  /**
   * A schedule or a resume takes over the window of its own key and leaves every other key's
   * alone; two players share a key only if a room name holds the separator.
   */
  lemma OthersAreLeftAlone(g: State, step: Step, room: string, user: string)
    requires (step.Schedule? && !step.guest) || step.Resume?
    ensures var g', key := Next(g, step), SessionKey(room, user);
            if SessionKey(step.room, step.user) == key
            then Latest(g'.ops, key) == Some(g'.ops[|g.ops|]) && (key in g.pending ==> g.pending[key] in g'.closes)
            else Latest(g'.ops, key) == Latest(g.ops, key) && Window(g', key) == Window(g, key)
    ensures '\0' !in room && '\0' !in step.room && (step.room, step.user) != (room, user)
            ==> SessionKey(step.room, step.user) != SessionKey(room, user)
  {
    LatestSnoc(g.ops, Next(g, step).ops[|g.ops|], SessionKey(room, user));
    if '\0' !in room && '\0' !in step.room && SessionKey(step.room, step.user) == SessionKey(room, user) {
      SessionKeyInjective(step.room, step.user, room, user);
    }
  }

  function Window(g: State, key: string): Option<nat>
  {
    if key in g.pending then Some(g.pending[key]) else None
  }

  // ---------- the service's own methods ----------

  class Service {
    var pending: map<string, nat>
    var closed: set<nat>
    var started: nat
    ghost var closes: seq<nat>
    ghost var routines: seq<Routine>
    ghost var ops: seq<Op>
    ghost var folds: seq<nat>
    ghost var stopped: bool

    ghost function View(): State
      reads this
    {
      State(pending, closes, routines, ops, folds, stopped)
    }

    ghost predicate Valid()
      reads this
    {
      Inv(View()) && started == |routines| && forall id :: id in closed <==> id in closes
    }

    constructor ()
      ensures Valid() && View() == IDLE
    {
      pending, closed, started := map[], {}, 0;
      closes, routines, ops, folds, stopped := [], [], [], [], false;
    }

    /** Closing a channel twice would panic. */
    method Close(channel: nat)
      requires channel !in closed
      modifies this`closed, this`closes
      ensures closed == old(closed) + {channel} && closes == old(closes) + [channel]
    {
      closed := closed + {channel};
      closes := closes + [channel];
    }

    method ScheduleEndSession(room: string, user: string, guest: bool)
      requires Valid()
      modifies this
      ensures Valid() && View() == Next(old(View()), Schedule(room, user, guest))
      ensures guest ==> View() == old(View())
      ensures !guest ==> SessionKey(room, user) in pending && started == old(started) + 1
    {
      if guest {
        return;
      }
      AskKeepsInv(View(), Schedule(room, user, guest));
      var key, done := SessionKey(room, user), started;
      if key in pending {
        assert PendingOk(View(), key);
        Close(pending[key]);
      }
      pending := pending[key := done];
      started := started + 1;
      routines := routines + [Routine(key, Waiting)];
      ops := ops + [Scheduled(key, done)];
    }

    method ResumeSession(room: string, user: string)
      requires Valid()
      modifies this
      ensures Valid() && View() == Next(old(View()), Resume(room, user))
    {
      AskKeepsInv(View(), Resume(room, user));
      var key := SessionKey(room, user);
      ops := ops + [Resumed(key)];
      if key in pending {
        assert PendingOk(old(View()), key);
        Close(pending[key]);
        pending := pending - {key};
      }
      assert pending == old(pending) - {key};
    }

    /** The re-check under the lock: whether this goroutine may fold. */
    method Recheck(key: string, done: nat) returns (fold: bool)
      requires Valid() && Enabled(View(), Check(done)) && routines[done].key == key
      modifies this`pending, this`routines
      ensures Valid() && View() == Next(old(View()), Check(done))
      ensures fold <==> Latest(ops, key) == Some(Scheduled(key, done))
    {
      CheckKeepsInv(View(), done);
      assert PendingOk(View(), key) && LatestOk(View(), key);
      fold := key in pending && pending[key] == done;
      if fold {
        pending := pending - {key};
        routines := routines[done := Routine(key, Passed)];
      } else {
        routines := routines[done := Routine(key, Gone)];
      }
    }

    /** The call of EndSession that follows it, outside the lock. */
    method Fold(done: nat)
      requires Valid() && Enabled(View(), Step.Fold(done))
      modifies this`routines, this`folds
      ensures Valid() && View() == Next(old(View()), Step.Fold(done))
    {
      FoldKeepsInv(View(), done);
      routines := routines[done := routines[done].(place := Ended)];
      folds := folds + [done];
    }
  }
}
