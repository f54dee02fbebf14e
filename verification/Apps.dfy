/** The app's handlers of one found instance: timers, timeouts, recurs, cancellations. */
module Apps {
  import opened Prelude
  import opened ActivityIds
  import opened Clock
  import opened Locks
  import opened Tables
  import opened Workflows
  import opened Replay
  import opened Saga
  import opened Machine
  import opened Accounts
  import opened Reachable
  import opened Storage
  import opened HistoryIterators
  import opened Compensations
  import opened Engines

  lemma OwnLock(r: Row, worker: string, expires: nat, now: nat)
    ensures Apply(r, Acquire(worker, expires)).lock == Locked(worker, expires)
    ensures Available(Locked(worker, expires), worker, now)
  {
  }

  lemma KeepsLock(r: Row, id: string, e: Event)
    ensures Apply(r, DropTimer(id)).lock == r.lock && Apply(r, Append(e)).lock == r.lock
  {
  }

  class App {
    const storage: SqliteStorage
    const engine: Engine
    const rollback: AppRollback
    const workerID: string
    const staleLockTimeout: nat

    constructor (storage: SqliteStorage, workerID: string, staleLockTimeout: nat, executors: Executors)
      ensures this.storage == storage && this.workerID == workerID && this.staleLockTimeout == staleLockTimeout
      ensures Ready() && rollback.executors == executors
    {
      this.storage, this.workerID, this.staleLockTimeout := storage, workerID, staleLockTimeout;
      engine := new Engine(storage, workerID, executors);
      rollback := new AppRollback(storage, executors);
    }

    predicate Ready() {
      engine.storage == storage && engine.workerID == workerID && engine.Ready() && rollback.storage == storage
    }

    function LeaseEnd(clock: nat): nat {
      Seconds(clock + staleLockTimeout * SECOND)
    }

    /** Records that a found timer has fired; the lock stays held for the resumption. */
    method FireTimer(i: string, id: string, clock: nat, now: nat) returns (acquired: bool)
      requires Ready() && storage.Valid() && storage.tx.None?
      modifies storage
      ensures storage.Valid() && storage.Touches(i) && storage.tx.None?
      ensures var r, step := old(storage.Row(i)), Firing(workerID, LeaseEnd(clock), id);
              && acquired == (i in storage.instances && ActsOn(r, now, step))
              && storage.Row(i) == if i in storage.instances then ApplyAll(r, HandlerActions(r, now, step)) else r
      ensures acquired ==> storage.Row(i).lock == Locked(workerID, LeaseEnd(clock))
    {
      hide Apply, ApplyAll, SqliteStorage.Row, SqliteStorage.Valid;
      ghost var r := storage.Row(i);
      ApplyNone(r);
      acquired := storage.TryAcquireLock(i, workerID, staleLockTimeout, clock, now);
      if acquired {
        storage.RemoveTimerSubscription(i, id);
        storage.AppendHistory(i, TimerEvent(id));
        ApplyThree(r, Acquire(workerID, LeaseEnd(clock)), DropTimer(id), Append(TimerEvent(id)));
        OwnLock(r, workerID, LeaseEnd(clock), now);
        var locked := Acquire(workerID, LeaseEnd(clock));
        KeepsLock(Apply(r, locked), id, TimerEvent(id));
        KeepsLock(Apply(Apply(r, locked), DropTimer(id)), id, TimerEvent(id));
      }
    }

    /** The steps of the protocol that handling a timer consists of. */
    ghost function TimerMoves(
      wf: Workflow, w: World, id: string, env: Env, fuel: nat, clock: nat, loaded: bool): seq<Move>
    {
      var fire, resume := Firing(workerID, LeaseEnd(clock), id), engine.Resumption(clock, env, fuel);
      [Move(fire, 3),
       if loaded then Move(resume, |Actions(wf, Next(wf, w, fire, 3), resume)|)
       else Move(Restarting(workerID, engine.LeaseEnd(clock)), 3)]
    }

    /** The handling is possible wherever a poll has found the timer, and keeps what the steps keep. */
    ghost predicate HandledSoundly(
      wf: Workflow, w: World, r: Row, id: string, env: Env, fuel: nat, clock: nat, loaded: bool)
    {
      var moves := TimerMoves(wf, w, id, env, fuel, clock, loaded);
      PossibleRun(wf, w, moves) && Reached(wf, w, moves).row == r && SoundWorld(wf, Reached(wf, w, moves))
    }

    /** The timer has fired, but nothing has been resumed yet. */
    ghost function Fired(r: Row, id: string, clock: nat): Row {
      ApplyAll(r, [Acquire(workerID, LeaseEnd(clock)), DropTimer(id), Append(TimerEvent(id))])
    }

    /** The resumption after the firing does not end in a rollback with a failed query. */
    ghost predicate ResumptionAnswered(
      wf: Workflow, r: Row, id: string, env: Env, fuel: nat, clock: nat, answers: nat -> bool)
    {
      engine.Answered(wf, Started(Fired(r, id, clock), workerID, engine.LeaseEnd(clock)), env, fuel, answers)
    }

    ghost predicate WorldOf(w: World, wf: Workflow, r: Row, id: string, env: Env, now: nat) {
      w.row == r && w.now == now == env.now && id in w.found && WellNamed(wf) && SoundWorld(wf, w)
    }

    /**
     * A found timer of a registered workflow: record that it fired, then resume.  Together these
     * are two steps of the protocol, so that whatever possible steps keep is kept by the class.
     */
    method HandleExpiredTimer(
      i: string, id: string, wf: Option<Workflow>, env: Env, fuel: nat, clock: nat, now: nat,
      loads: nat -> bool, answers: nat -> bool)
      returns (handled: bool, loaded: bool)
      requires Ready() && storage.Valid() && storage.tx.None?
      modifies storage
      ensures storage.Valid() && storage.Touches(i) && storage.tx.None?
      ensures var r := old(storage.Row(i));
              handled == (i in storage.instances && wf.Some? && Available(r.lock, workerID, now))
      ensures !loaded ==> !handled || exists k: nat :: !loads(k)
      ensures var r, fired := old(storage.Row(i)), Fired(old(storage.Row(i)), id, clock);
              storage.Row(i) == if handled then engine.Resumed(wf.value, fired, env, fuel, clock, loaded, answers) else r
      ensures handled && (loaded ==> ResumptionAnswered(wf.value, old(storage.Row(i)), id, env, fuel, clock, answers)) ==>
                forall w :: WorldOf(w, wf.value, old(storage.Row(i)), id, env, now) ==>
                  HandledSoundly(wf.value, w, storage.Row(i), id, env, fuel, clock, loaded)
    {
      hide Apply, ApplyAll, SqliteStorage.Row, SqliteStorage.Valid, Engine.Resumed, Engine.Answered, Engine.LeaseEnd,
           HandledSoundly, WorldOf;
      handled, loaded := false, false;
      if i !in storage.instances || wf.None? {
        return;
      }
      ghost var r := storage.Row(i);
      handled := FireTimer(i, id, clock, now);
      ApplyNone(r);
      if handled {
        OwnLock(storage.Row(i), workerID, LeaseEnd(clock), now);
        var acquired;
        acquired, loaded := engine.ResumeWorkflow(i, wf.value, env, fuel, clock, now, loads, answers);
        ghost var r' := storage.Row(i);
        RowOpen(storage, i);
        if loaded ==> ResumptionAnswered(wf.value, r, id, env, fuel, clock, answers) {
          forall w | WorldOf(w, wf.value, r, id, env, now)
            ensures HandledSoundly(wf.value, w, r', id, env, fuel, clock, loaded)
          {
            FiredAndResumed(wf.value, w, r, r', id, env, fuel, clock, now, loaded, answers);
          }
        }
      }
    }

    lemma FiredAndResumed(
      wf: Workflow, w: World, r: Row, r': Row, id: string, env: Env, fuel: nat, clock: nat, now: nat, loaded: bool,
      answers: nat -> bool)
      requires Ready() && WorldOf(w, wf, r, id, env, now) && Available(r.lock, workerID, now)
      requires r'.tx.None? && r' == engine.Resumed(wf, Fired(r, id, clock), env, fuel, clock, loaded, answers)
      requires loaded ==> ResumptionAnswered(wf, r, id, env, fuel, clock, answers)
      ensures HandledSoundly(wf, w, r', id, env, fuel, clock, loaded)
    {
      hide ApplyAll, After, WellNamed, SoundWorld, Engine.Answered, Engine.Executing, Actions, Next, Possible,
           PossibleRun, Reached;
      var moves := TimerMoves(wf, w, id, env, fuel, clock, loaded);
      var fired := Next(wf, w, moves[0].step, 3);
      WorldOpen(wf, w);
      FiringIs(wf, w, moves[0].step);
      engine.ResumptionIsStep(wf, fired, env, fuel, clock, answers);
      BothPossible(wf, w, moves, id);
      RunSound(wf, w, moves);
    }

    lemma BothPossible(wf: Workflow, w: World, moves: seq<Move>, id: string)
      requires |moves| == 2 && moves[0].step.Firing? && moves[0].step.id == id && id in w.found
      requires moves[1].step.Restarting? || (moves[1].step.Resuming? && moves[1].step.env.now == w.now)
      ensures PossibleRun(wf, w, moves)
      ensures Reached(wf, w, moves) ==
              Next(wf, Next(wf, w, moves[0].step, moves[0].cut), moves[1].step, moves[1].cut)
    {
      hide Next;
      assert moves == [moves[0]] + ([moves[1]] + []);
      MoveOn(wf, w, moves[0], [moves[1]] + []);
      var fired := Next(wf, w, moves[0].step, moves[0].cut);
      MoveOn(wf, fired, moves[1], []);
      StandStill(wf, Next(wf, fired, moves[1].step, moves[1].cut));
      FiringKeepsTime(wf, w, moves[0]);
    }

    method HandleChannelTimeout(i: string, channel: string, id: string, text: string, clock: nat, now: nat)
      requires Ready() && storage.Valid() && storage.tx.None?
      modifies storage
      ensures storage.Valid() && storage.Touches(i) && storage.tx.None?
      ensures var r, step := old(storage.Row(i)), TimingOut(workerID, LeaseEnd(clock), channel, id, text);
              storage.Row(i) == if i in storage.instances then ApplyAll(r, HandlerActions(r, now, step)) else r
    {
      hide Apply, ApplyAll, SqliteStorage.Row, SqliteStorage.Valid;
      ghost var r := storage.Row(i);
      ApplyNone(r);
      var acquired := storage.TryAcquireLock(i, workerID, staleLockTimeout, clock, now);
      if acquired {
        storage.AppendHistory(i, Event(id, MessageTimeout, Json(text)));
        storage.WakeUp(i, channel, workerID);
        ApplyTwoAndThree(r, Acquire(workerID, LeaseEnd(clock)), Append(Event(id, MessageTimeout, Json(text))),
          ClearWaiting(channel), SetStatus(Running), ReleaseBy(workerID));
      }
    }

    /** Sets a recurred instance running and lets go of it. */
    method Restart(i: string, clock: nat, now: nat) returns (acquired: bool)
      requires Ready() && storage.Valid() && storage.tx.None?
      modifies storage
      ensures storage.Valid() && storage.Touches(i) && storage.tx.None?
      ensures var r, step := old(storage.Row(i)), Restarting(workerID, LeaseEnd(clock));
              && acquired == (i in storage.instances && ActsOn(r, now, step))
              && storage.Row(i) == if i in storage.instances then ApplyAll(r, HandlerActions(r, now, step)) else r
    {
      hide Apply, ApplyAll, SqliteStorage.Row, SqliteStorage.Valid;
      ghost var r := storage.Row(i);
      ApplyNone(r);
      acquired := storage.TryAcquireLock(i, workerID, staleLockTimeout, clock, now);
      if acquired {
        storage.UpdateInstanceStatus(i, Running);
        storage.ReleaseLock(i, workerID);
        ApplyThree(r, Acquire(workerID, LeaseEnd(clock)), SetStatus(Running), ReleaseBy(workerID));
      }
    }

    /** What a cancellation undoes: nothing, if a query of its rollback fails. */
    ghost function Undoing(r: Row, answers: nat -> bool): seq<Action> {
      if rollback.RollsBack(r, answers) then RollbackActions(r, AppErrors(rollback.executors)) else []
    }

    /**
     * Cancels an instance whose status was read as `seen` before the lock was taken: rolls back,
     * and marks it cancelled unless it has ended in between.
     */
    method CancelWorkflow(i: string, seen: Status, clock: nat, now: nat, answers: nat -> bool) returns (err: Option<string>)
      requires Ready() && storage.Valid() && storage.tx.None?
      modifies storage
      ensures storage.Valid() && storage.Touches(i) && storage.tx.None?
      ensures i !in storage.instances ==> storage.Row(i) == old(storage.Row(i)) && err.Some?
      ensures i in storage.instances ==>
                var r, step := old(storage.Row(i)), Cancelling(workerID, LeaseEnd(clock), seen, AppErrors(rollback.executors));
                && (err.None? <==> if Terminal(seen) then seen.Cancelled? else ActsOn(r, now, step) && !Terminal(r.status))
                && (rollback.RollsBack(r, answers) ==> storage.Row(i) == ApplyAll(r, HandlerActions(r, now, step)))
                && ((forall k :: answers(k)) ==> storage.Row(i) == ApplyAll(r, HandlerActions(r, now, step)))
                && (!rollback.RollsBack(r, answers) ==>
                      storage.Row(i) == if Terminal(seen) || !ActsOn(r, now, step) then r
                                        else ApplyAll(r, [Acquire(workerID, LeaseEnd(clock))] + CancelEnd(r.status, workerID)))
    {
      hide Apply, ApplyAll, SqliteStorage.Row, SqliteStorage.Valid, RollbackActions, Called, Compensations.Broken, Todo,
           AppRollback.RollsBack, CancelEnd, Undoing;
      ghost var r := storage.Row(i);
      ApplyNone(r);
      if forall k :: answers(k) {
        rollback.AnsweredRollsBack(r, answers);
      }
      if i !in storage.instances {
        return Some("workflow not found");
      }
      if seen.Completed? || seen.Failed? {
        return Some("cannot cancel an ended workflow");
      } else if seen.Cancelled? {
        return None;
      }
      var acquired := storage.TryAcquireLock(i, workerID, staleLockTimeout, clock, now);
      if !acquired {
        return Some("workflow is locked by another worker");
      }
      var cancelled := RollBackAndCancel(i, answers);
      CancellationIs(r, Cancelling(workerID, LeaseEnd(clock), seen, AppErrors(rollback.executors)), now, answers);
      return if cancelled then None else Some("workflow not cancellable");
    }

    /** The statements of a cancellation that takes place. */
    lemma CancellationIs(r: Row, step: Step, now: nat, answers: nat -> bool)
      requires step.Cancelling? && step.worker == workerID && step.errors == AppErrors(rollback.executors)
      requires ActsOn(r, now, step) && !Terminal(step.seen)
      ensures var acquire, end := Acquire(workerID, step.expires), CancelEnd(r.status, workerID);
              var locked := Apply(r, acquire);
              && locked.status == r.status
              && ApplyAll(locked, Undoing(locked, answers) + end) ==
                   ApplyAll(r, if rollback.RollsBack(r, answers) then HandlerActions(r, now, step) else [acquire] + end)
    {
      hide Apply, ApplyAll, RollbackActions, AppRollback.RollsBack, CancelEnd;
      var acquire, end := Acquire(workerID, step.expires), CancelEnd(r.status, workerID);
      AcquiredElse(r, workerID, step.expires, AppErrors(rollback.executors), rollback, answers);
      ApplyCons(r, acquire, Undoing(r, answers) + end);
      assert [] + end == end;
    }

    /** With the lock held: compensate, mark as cancelled if that is still possible, release. */
    method RollBackAndCancel(i: string, answers: nat -> bool) returns (cancelled: bool)
      requires Ready() && storage.Valid() && storage.tx.None? && i in storage.instances
      modifies storage
      ensures storage.Valid() && storage.Touches(i) && storage.tx.None?
      ensures cancelled <==> !Terminal(old(storage.Row(i)).status)
      ensures var r := old(storage.Row(i));
              storage.Row(i) == ApplyAll(r, Undoing(r, answers) + CancelEnd(r.status, workerID))
    {
      hide Apply, ApplyAll, SqliteStorage.Row, SqliteStorage.Valid, RollbackActions, Called, Compensations.Broken, Todo,
           AppRollback.RollsBack;
      ghost var r := storage.Row(i);
      ApplyNone(r);
      var compErr, called := rollback.ExecuteCompensations(i, answers);
      ghost var undone := storage.Row(i);
      PassKeepsStatus(r, AppErrors(rollback.executors));
      cancelled := storage.CancelInstance(i);
      storage.ReleaseLock(i, workerID);
      ApplyConcat(r, Undoing(r, answers), CancelEnd(r.status, workerID));
      ApplyPair(undone, SetStatus(Cancelled), ReleaseBy(workerID));
      ApplyPair(undone, ReleaseBy(workerID), ReleaseBy(workerID));
    }
  }

  lemma FiringKeepsTime(wf: Workflow, w: World, m: Move)
    requires m.step.Firing?
    ensures Next(wf, w, m.step, m.cut).now == w.now
  {
  }

  lemma RowOpen(storage: SqliteStorage, i: string)
    requires storage.tx.None?
    ensures storage.Row(i).tx.None?
  {
  }

  /** The row after the firing step. */
  lemma FiringIs(wf: Workflow, w: World, step: Step)
    requires w.row.tx.None? && step.Firing? && Acts(w, step)
    ensures Next(wf, w, step, 3) ==
            w.(row := ApplyAll(w.row, [Acquire(step.worker, step.expires), DropTimer(step.id), Append(TimerEvent(step.id))]))
    ensures Next(wf, w, step, 3).row.tx.None? && Next(wf, w, step, 3).row.lock == Locked(step.worker, step.expires)
  {
    hide ApplyAll, HasId, Appended;
    var all := [Acquire(step.worker, step.expires), DropTimer(step.id), Append(TimerEvent(step.id))];
    WalkThree(w.row, all[0], all[1], all[2], 3);
    ApplyThree(w.row, all[0], all[1], all[2]);
    LeftStays(w, all, 3);
  }

  lemma AcquiredElse(
    r: Row, worker: string, expires: nat, errors: Compensation -> Option<string>, rollback: AppRollback, answers: nat -> bool)
    ensures var r' := Apply(r, Acquire(worker, expires));
            && r'.status == r.status && RollbackActions(r', errors) == RollbackActions(r, errors)
            && (rollback.RollsBack(r', answers) <==> rollback.RollsBack(r, answers))
  {
    hide Lifo, ExecutedIds, PassActions, Reads;
  }

  /** A rollback leaves the status alone. */
  lemma PassKeepsStatus(r: Row, errors: Compensation -> Option<string>)
    ensures ApplyAll(r, RollbackActions(r, errors)).status == r.status
  {
    PassStatus(r, Lifo(r.compensations), ExecutedIds(r.history), errors);
  }

  lemma {:induction false} PassStatus(
    r: Row, entries: seq<Compensation>, executed: set<nat>, errors: Compensation -> Option<string>)
    ensures ApplyAll(r, PassActions(entries, executed, errors)).status == r.status
    decreases |entries|
  {
    hide ApplyAll;
    ApplyNone(r);
    if entries != [] {
      var rest := PassActions(entries[1..], executed, errors);
      var first := PassPair(entries[0], errors);
      if entries[0].id in executed {
        assert PassActions(entries, executed, errors) == rest;
        PassStatus(r, entries[1..], executed, errors);
      } else {
        assert PassActions(entries, executed, errors) == first + rest;
        ApplyConcat(r, first, rest);
        ApplyPair(r, first[0], first[1]);
        PassStatus(ApplyAll(r, first), entries[1..], executed, errors);
      }
    }
  }
}
