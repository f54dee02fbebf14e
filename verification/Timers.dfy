/** Timers fire once, never early by a second, and keep their expiry while their row remains. */
module Timers {
  import opened Prelude
  import opened ActivityIds
  import opened Clock
  import opened Locks
  import opened Tables
  import opened Workflows
  import opened Replay
  import opened Saga
  import opened Machine
  import opened Integrity
  import opened Accounts
  import opened Reachable

  // ---- A timer row keeps its expiry ----

  /** Rows are only added, or only removed. */
  predicate OneWay(actions: seq<Action>) {
    || (forall a :: a in actions ==> !a.PutTimer?)
    || (forall a :: a in actions ==> !a.DropTimer? && !a.DropTimers?)
  }

  lemma {:induction false} WritesLeaveTimers(r: Row, actions: seq<Action>)
    requires forall a :: a in actions ==> Buffered(a)
    ensures WriteAll(r, actions).timers == r.timers
  {
    if actions != [] {
      assert Buffered(actions[|actions| - 1]);
      WritesLeaveTimers(r, actions[..|actions| - 1]);
    }
  }

  predicate BuffersOnly(r: Row) {
    r.tx.Some? ==> forall a :: a in r.tx.value ==> Buffered(a)
  }

  lemma ApplyTimers(r: Row, a: Action)
    requires BuffersOnly(r)
    ensures BuffersOnly(Apply(r, a))
    ensures !a.PutTimer? ==> forall id :: id in Apply(r, a).timers ==> id in r.timers && Apply(r, a).timers[id] == r.timers[id]
    ensures !a.DropTimer? && !a.DropTimers? ==>
              forall id :: id in r.timers ==> id in Apply(r, a).timers && Apply(r, a).timers[id] == r.timers[id]
  {
    if a.Commit? && r.tx.Some? {
      WritesLeaveTimers(r.(tx := None), r.tx.value);
      WritesTx(r.(tx := None), r.tx.value);
    }
  }

  lemma {:induction false} ActionsOneWay(r: Row, actions: seq<Action>)
    requires BuffersOnly(r)
    ensures BuffersOnly(ApplyAll(r, actions))
    ensures (forall a :: a in actions ==> !a.PutTimer?) ==>
              forall id :: id in ApplyAll(r, actions).timers ==>
                id in r.timers && ApplyAll(r, actions).timers[id] == r.timers[id]
    ensures (forall a :: a in actions ==> !a.DropTimer? && !a.DropTimers?) ==>
              forall id :: id in r.timers ==>
                id in ApplyAll(r, actions).timers && ApplyAll(r, actions).timers[id] == r.timers[id]
  {
    hide Apply, BuffersOnly;
    if actions != [] {
      ActionsOneWay(r, actions[..|actions| - 1]);
      ApplyTimers(ApplyAll(r, actions[..|actions| - 1]), actions[|actions| - 1]);
    }
  }

  lemma ConclusionOneWay(r: Row, end: End, worker: string, env: Env)
    ensures OneWay(Conclusion(r, end, worker, env))
  {
    hide RollbackActions;
    PassShape(Lifo(r.compensations), ExecutedIds(r.history), env.compensate);
    RollbackTimerless(r, env.compensate);
  }

  lemma RollbackTimerless(r: Row, errors: Compensation -> Option<string>)
    ensures forall a :: a in RollbackActions(r, errors) ==> !a.PutTimer? && !a.DropTimer? && !a.DropTimers?
  {
    PassShape(Lifo(r.compensations), ExecutedIds(r.history), errors);
  }

  lemma ResumeOneWay(wf: Workflow, r: Row, worker: string, expires: nat, env: Env, fuel: nat)
    ensures OneWay(ResumeActions(wf, r, worker, expires, env, fuel))
  {
    hide Exec, Conclusion, ApplyAll;
    var started := Started(r, worker, expires);
    var plan := Exec(wf, [], CacheOf(started.history), env, fuel);
    ExecShape(wf, [], CacheOf(started.history), env, fuel);
    ConclusionOneWay(ApplyAll(started, plan.actions), plan.end, worker, env);
  }

  lemma StepOneWay(wf: Workflow, w: World, step: Step)
    ensures OneWay(Actions(wf, w, step))
  {
    hide ResumeActions, RollbackActions, HasId;
    if step.Resuming? {
      ResumeOneWay(wf, w.row, step.worker, step.expires, step.env, step.fuel);
    } else if step.Cleaning? {
      ResumeOneWay(wf, w.row.(lock := Unlocked), step.worker, step.expires, step.env, step.fuel);
    } else if step.Cancelling? {
      RollbackTimerless(w.row, step.errors);
    }
  }

  /** While a timer row remains, no step, cut anywhere, changes its expiry. */
  lemma TimerKeepsExpiry(wf: Workflow, w: World, step: Step, cut: nat, id: string)
    requires w.row.tx.None?
    requires id in w.row.timers && id in Next(wf, w, step, cut).row.timers
    ensures Next(wf, w, step, cut).row.timers[id] == w.row.timers[id]
  {
    hide Actions, ApplyAll;
    if !step.Polling? && !step.Passing? {
      var all := Actions(wf, w, step);
      var k := Clip(cut, all);
      StepOneWay(wf, w, step);
      assert forall a :: a in all[..k] ==> a in all;
      ActionsOneWay(w.row, all[..k]);
    }
  }

  /** Handling a found timer leaves one record of its completion and no row, however often. */
  lemma FiringRecordsOnce(wf: Workflow, w: World, step: Step)
    requires w.row.tx.None? && UniqueIds(w.row.history) && step.Firing? && Acts(w, step)
    ensures var r' := Next(wf, w, step, 3).row;
            && HasId(r'.history, step.id) && step.id !in r'.timers
            && (HasId(w.row.history, step.id) ==> r'.history == w.row.history)
            && (!HasId(w.row.history, step.id) ==> r'.history == w.row.history + [TimerEvent(step.id)])
            && UniqueIds(r'.history)
  {
    hide ApplyAll, After;
    WalkThree(w.row, Acquire(step.worker, step.expires), DropTimer(step.id), Append(TimerEvent(step.id)), 3);
  }

  // ---- A sleep is not over early ----

  /** No activity shares the name under which sleeps take their ids. */
  ghost predicate SleepsAlone(wf: Workflow) {
    forall seen :: wf(seen).Activity? ==> wf(seen).name != "sleep"
  }

  /** Nothing records the end of the sleep, and nothing takes its timer away. */
  ghost predicate SparesTimer(a: Action, id: string) {
    (a.Append? ==> a.event.activityId != id) && (a.DropTimer? ==> a.id != id)
  }

  ghost predicate Spares(actions: seq<Action>, id: string) {
    forall a :: a in actions ==> SparesTimer(a, id)
  }

  lemma SleepIdIsNoOther(id: string)
    requires SleepId(id)
    ensures !Unclaimed(id) && id != "recur" && id != ""
    ensures forall ch :: !ReceiveId(ch, id)
    ensures forall n :: id != RecordId(n)
  {
    hide Render;
    var n :| id == Render("sleep", n);
    SleepStarts(n);
    forall ch ensures !ReceiveId(ch, id) {
      if m :| id == Render("receive_" + ch, m) {
        RenderInjective("sleep", n, "receive_" + ch, m);
      }
    }
    forall m ensures id != RecordId(m) {
      if id == RecordId(m) {
        RenderInjective("sleep", n, "compensation", m);
      }
    }
  }

  lemma SleepStarts(n: nat)
    ensures !Unclaimed(Render("sleep", n)) && Render("sleep", n) != "recur" && Render("sleep", n) != ""
    ensures forall ch :: "sleep" != "receive_" + ch
    ensures "sleep" != "compensation"
  {
    assert Render("sleep", n)[0] == 's' && "channel:"[0] == 'c' && "recur"[0] == 'r';
    assert "sleep"[0] == 's';
    forall ch ensures "sleep" != "receive_" + ch {
      assert ("receive_" + ch)[0] == 'r';
    }
  }

  /** An activity's id, or a receive's, is not the sleep's. */
  lemma CallSpares(wf: Workflow, seen: seq<Outcome>, id: string)
    requires SleepsAlone(wf) && SleepId(id) && (wf(seen).Activity? || wf(seen).WaitEvent?)
    ensures IdOf(wf, seen) != id
  {
    hide Render;
    var n :| id == Render("sleep", n);
    SleepStarts(n);
    var c, m := wf(seen), Counter(wf, seen, NameOf(wf(seen))) + 1;
    if Render(NameOf(c), m) == id {
      RenderInjective("sleep", n, NameOf(c), m);
    }
  }

  lemma TurnSpares(wf: Workflow, seen: seq<Outcome>, cache: map<string, Outcome>, env: Env, id: string)
    requires SleepsAlone(wf) && SleepId(id) && !Ends(wf(seen))
    ensures Spares(TurnOf(wf, seen, cache, env).actions, id)
  {
    hide IdOf, SleepId, SleepsAlone, ActivityEvent, Perform;
    var c, next := wf(seen), IdOf(wf, seen);
    if c.Activity? || c.WaitEvent? {
      CallSpares(wf, seen, id);
      if c.Activity? || env.pending(next).Some? {
        PerformSpares(c, next, env, id);
      }
    }
  }

  lemma PerformSpares(c: Call, next: string, env: Env, id: string)
    requires (c.Activity? || (c.WaitEvent? && env.pending(next).Some?)) && next != id
    ensures Spares(Perform(c, next, env), id)
  {
    EventIds(next, PerformedOutcome(c, next, env));
  }

  lemma {:induction false} ExecSpares(
    wf: Workflow, seen: seq<Outcome>, cache: map<string, Outcome>, env: Env, fuel: nat, id: string)
    requires SleepsAlone(wf) && SleepId(id)
    ensures Spares(Exec(wf, seen, cache, env, fuel).actions, id)
    decreases fuel
  {
    hide TurnOf, Exec, IdOf, Suspends, SleepId, SleepsAlone, SparesTimer;
    ExecStep(wf, seen, cache, env, fuel);
    if fuel > 0 && !Ends(wf(seen)) {
      var turn := TurnOf(wf, seen, cache, env);
      TurnSpares(wf, seen, cache, env, id);
      if turn.outcome.Some? {
        ExecSpares(wf, seen + [turn.outcome.value], turn.cache, env, fuel - 1, id);
      }
    }
  }

  lemma RollbackSpares(r: Row, errors: Compensation -> Option<string>, id: string)
    requires SleepId(id)
    ensures Spares(RollbackActions(r, errors), id)
  {
    SleepIdIsNoOther(id);
    PassShape(Lifo(r.compensations), ExecutedIds(r.history), errors);
  }

  lemma ConclusionSpares(r: Row, end: End, worker: string, env: Env, id: string)
    requires SleepId(id)
    ensures Spares(Conclusion(r, end, worker, env), id)
  {
    hide RollbackActions, SleepId;
    SleepIdIsNoOther(id);
    RollbackSpares(r, env.compensate, id);
  }

  lemma ResumeSpares(wf: Workflow, r: Row, worker: string, expires: nat, env: Env, fuel: nat, id: string)
    requires SleepsAlone(wf) && SleepId(id)
    ensures Spares(ResumeActions(wf, r, worker, expires, env, fuel), id)
  {
    hide Exec, Conclusion, ApplyAll, SleepId, SleepsAlone;
    var started := Started(r, worker, expires);
    var plan := Exec(wf, [], CacheOf(started.history), env, fuel);
    ExecSpares(wf, [], CacheOf(started.history), env, fuel, id);
    ConclusionSpares(ApplyAll(started, plan.actions), plan.end, worker, env, id);
  }

  lemma HandlerSpares(w: World, step: Step, id: string)
    requires FormedWorld(w) && Possible(w, step) && SleepId(id) && (step.Firing? ==> step.id != id)
    ensures Spares(HandlerActions(w.row, w.now, step), id)
  {
    hide RollbackActions, HasId, SleepId, ReceiveId, FormedRow, RecordId;
    SleepIdIsNoOther(id);
    if step.Cancelling? {
      RollbackSpares(w.row, step.errors, id);
    } else if step.Delivering? && !Refused(w.row, step.channel, step.message) {
      DeliverySpares(w.row, step.channel, step.message, id);
    } else if step.TimingOut? {
      assert ReceiveId(Late(step.channel, step.id).channel, Late(step.channel, step.id).activityId);
    }
  }

  lemma DeliverySpares(r: Row, channel: string, message: nat, id: string)
    requires FormedRow(r) && channel in r.subscriptions && SleepId(id)
    ensures DeliveryId(r, channel, message) != id
  {
    hide SleepId, ReceiveId, Proper;
    SleepIdIsNoOther(id);
    assert Render("channel:" + channel, message) == "channel:" + (channel + ":" + Decimal(message));
  }

  lemma StepSpares(wf: Workflow, w: World, step: Step, id: string)
    requires SleepsAlone(wf) && FormedWorld(w) && Possible(w, step) && SleepId(id) && (step.Firing? ==> step.id != id)
    ensures Spares(Actions(wf, w, step), id)
  {
    hide ResumeActions, HandlerActions, FormedWorld, SleepId, SleepsAlone, Possible;
    if step.Resuming? {
      ResumeSpares(wf, w.row, step.worker, step.expires, step.env, step.fuel, id);
    } else if step.Cleaning? {
      ResumeSpares(wf, w.row.(lock := Unlocked), step.worker, step.expires, step.env, step.fuel, id);
    } else {
      HandlerSpares(w, step, id);
    }
  }

  /** A transaction in progress that spares the timer as well. */
  ghost predicate SparesOpen(r: Row, id: string) {
    r.tx.Some? ==> Spares(r.tx.value, id) && DropTimers !in r.tx.value && ClearHistory !in r.tx.value
  }

  lemma WriteSpares(r: Row, a: Action, id: string)
    requires SparesTimer(a, id) && !a.DropTimers? && !a.ClearHistory?
    ensures HasId(Write(r, a).history, id) <==> HasId(r.history, id)
    ensures id in r.timers ==> id in Write(r, a).timers && Write(r, a).timers[id] == r.timers[id]
    ensures Write(r, a).tx == r.tx
  {
    if a.Append? {
      AppendedIds(r.history, a.event, id);
    }
  }

  lemma {:induction false} WritesSpare(r: Row, actions: seq<Action>, id: string)
    requires Spares(actions, id) && DropTimers !in actions && ClearHistory !in actions
    ensures HasId(WriteAll(r, actions).history, id) <==> HasId(r.history, id)
    ensures id in r.timers ==> id in WriteAll(r, actions).timers && WriteAll(r, actions).timers[id] == r.timers[id]
    ensures WriteAll(r, actions).tx == r.tx
  {
    hide Write, HasId, SparesTimer;
    if actions != [] {
      WritesSpare(r, actions[..|actions| - 1], id);
      WriteSpares(WriteAll(r, actions[..|actions| - 1]), actions[|actions| - 1], id);
    }
  }

  lemma ApplySpares(r: Row, a: Action, id: string)
    requires SparesTimer(a, id) && !a.DropTimers? && !a.ClearHistory? && SparesOpen(r, id)
    ensures HasId(Apply(r, a).history, id) <==> HasId(r.history, id)
    ensures id in r.timers ==> id in Apply(r, a).timers && Apply(r, a).timers[id] == r.timers[id]
    ensures SparesOpen(Apply(r, a), id)
  {
    hide Write, WriteAll, HasId, SparesTimer;
    WriteSpares(r, a, id);
    if r.tx.Some? {
      WritesSpare(r.(tx := None), r.tx.value, id);
    }
  }

  lemma {:induction false} ActionsSpare(r: Row, actions: seq<Action>, id: string)
    requires Spares(actions, id) && DropTimers !in actions && ClearHistory !in actions && SparesOpen(r, id)
    ensures HasId(ApplyAll(r, actions).history, id) <==> HasId(r.history, id)
    ensures id in r.timers ==> id in ApplyAll(r, actions).timers && ApplyAll(r, actions).timers[id] == r.timers[id]
    ensures SparesOpen(ApplyAll(r, actions), id)
  {
    hide Apply, HasId, SparesTimer, SparesOpen;
    if actions != [] {
      ActionsSpare(r, actions[..|actions| - 1], id);
      ApplySpares(ApplyAll(r, actions[..|actions| - 1]), actions[|actions| - 1], id);
    }
  }

  // ---- Timers are dropped together only after the history is deleted ----

  predicate DropsLate(actions: seq<Action>) {
    forall k :: 0 <= k <= |actions| && DropTimers in actions[..k] ==> ClearHistory in actions[..k]
  }

  lemma DropsLateConcat(first: seq<Action>, second: seq<Action>)
    requires DropTimers !in first && DropsLate(second)
    ensures DropsLate(first + second)
  {
    forall k | 0 <= k <= |first + second|
      ensures DropTimers in (first + second)[..k] ==> ClearHistory in (first + second)[..k]
    {
      if k <= |first| {
        assert (first + second)[..k] == first[..k];
      } else {
        assert (first + second)[..k] == first + second[..k - |first|];
      }
    }
  }

  lemma ConclusionDropsLate(r: Row, end: End, worker: string, env: Env)
    ensures DropsLate(Conclusion(r, end, worker, env))
  {
    hide RollbackActions;
    RollbackTimerless(r, env.compensate);
    var all := Conclusion(r, end, worker, env);
    if !end.Recurs? {
      assert DropTimers !in all;
      NeverDrops(all);
    } else {
      forall k | 0 <= k <= |all| && DropTimers in all[..k] ensures ClearHistory in all[..k] {
        assert k >= 3;
        assert all[..k][1] == ClearHistory;
      }
    }
  }

  lemma StepDropsLate(wf: Workflow, w: World, step: Step)
    ensures DropsLate(Actions(wf, w, step))
  {
    hide ResumeActions, RollbackActions, HasId, DropsLate;
    if step.Resuming? {
      ResumeDropsLate(wf, w.row, step.worker, step.expires, step.env, step.fuel);
    } else if step.Cleaning? {
      var r' := w.row.(lock := Unlocked);
      ResumeDropsLate(wf, r', step.worker, step.expires, step.env, step.fuel);
      DropsLateConcat([BreakLock], ResumeActions(wf, r', step.worker, step.expires, step.env, step.fuel));
      NeverDrops([BreakLock] + []);
    } else {
      HandlersDropNothing(w.row, w.now, step);
      NeverDrops(HandlerActions(w.row, w.now, step));
    }
    NeverDrops([]);
  }

  lemma HandlersDropNothing(r: Row, now: nat, step: Step)
    ensures DropTimers !in HandlerActions(r, now, step)
  {
    hide RollbackActions, HasId;
    if step.Cancelling? {
      RollbackTimerless(r, step.errors);
    }
  }

  lemma NeverDrops(actions: seq<Action>)
    requires DropTimers !in actions
    ensures DropsLate(actions)
  {
  }

  lemma ResumeDropsLate(wf: Workflow, r: Row, worker: string, expires: nat, env: Env, fuel: nat)
    ensures DropsLate(ResumeActions(wf, r, worker, expires, env, fuel))
  {
    hide Exec, Conclusion, ApplyAll, DropsLate;
    var started := Started(r, worker, expires);
    var plan := Exec(wf, [], CacheOf(started.history), env, fuel);
    var last := Conclusion(ApplyAll(started, plan.actions), plan.end, worker, env);
    ExecShape(wf, [], CacheOf(started.history), env, fuel);
    ConclusionDropsLate(ApplyAll(started, plan.actions), plan.end, worker, env);
    DropsLateConcat(plan.actions, last);
    DropsLateConcat([Acquire(worker, expires), SetStatus(Running)], plan.actions + last);
  }

  // ---- Runs ----

  /** The second has come, or the timer stands and no poll has found it. */
  ghost predicate NotEarly(w: World, id: string, second: nat) {
    || second <= Seconds(w.now)
    || (!HasId(w.row.history, id) && id !in w.found && id in w.row.timers && w.row.timers[id] == second)
  }

  lemma StepNotEarly(wf: Workflow, w: World, step: Step, cut: nat, id: string, second: nat)
    requires WellNamed(wf) && SleepsAlone(wf) && SoundWorld(wf, w) && Possible(w, step) && SleepId(id)
    requires NotEarly(w, id, second) && Next(wf, w, step, cut).iteration == w.iteration
    ensures NotEarly(Next(wf, w, step, cut), id, second)
  {
    hide WellNamed, SleepsAlone, Sound, FormedWorld, SleepId, HasId, Actions, ApplyAll, Spares;
    SoundIsClear(wf, w.base, w.row);
    StepGrows(wf, w, step, cut);
    SecondsMonotone(w.now, Next(wf, w, step, cut).now);
    if Seconds(w.now) < second && !step.Polling? && !step.Passing? {
      var all := Actions(wf, w, step);
      var done := all[..Clip(cut, all)];
      StepSpares(wf, w, step, id);
      StepDropsLate(wf, w, step);
      SomeSpares(all, Clip(cut, all), id);
      ActionsSpare(w.row, done, id);
    }
  }

  lemma SomeSpares(actions: seq<Action>, k: nat, id: string)
    requires Spares(actions, id) && k <= |actions|
    ensures Spares(actions[..k], id)
  {
  }

  lemma {:induction false} RunNotEarly(wf: Workflow, w: World, moves: seq<Move>, id: string, second: nat)
    requires WellNamed(wf) && SleepsAlone(wf) && SoundWorld(wf, w) && PossibleRun(wf, w, moves) && SleepId(id)
    requires NotEarly(w, id, second) && Reached(wf, w, moves).iteration == w.iteration
    ensures NotEarly(Reached(wf, w, moves), id, second)
    decreases |moves|
  {
    hide WellNamed, SleepsAlone, SoundWorld, SleepId, NotEarly, Next, Possible;
    if moves != [] {
      var next := Next(wf, w, moves[0].step, moves[0].cut);
      StepSound(wf, w, moves[0].step, moves[0].cut);
      StepGrowsSound(wf, w, moves[0].step, moves[0].cut);
      RunGrows(wf, next, moves[1..]);
      StepNotEarly(wf, w, moves[0].step, moves[0].cut, id, second);
      RunNotEarly(wf, next, moves[1..], id, second);
    }
  }

  lemma StepGrowsSound(wf: Workflow, w: World, step: Step, cut: nat)
    requires SoundWorld(wf, w)
    ensures w.iteration <= Next(wf, w, step, cut).iteration && Next(wf, w, step, cut).row.tx.None?
  {
    SoundIsClear(wf, w.base, w.row);
    StepGrows(wf, w, step, cut);
  }

  /**
   * A sleep is never over a second early.  Take any state in which its timer stands for an expiry
   * and no poll has found it: whatever possible steps follow in the iteration, crashes and repeated
   * registrations included, and whatever workflow code does elsewhere - once the sleep has its
   * completion record, the clock is past the expiry, minus less than a second.
   */
  lemma SleepNotEarly(wf: Workflow, w: World, moves: seq<Move>, id: string, expiry: nat)
    requires WellNamed(wf) && SleepsAlone(wf) && SoundWorld(wf, w) && PossibleRun(wf, w, moves) && SleepId(id)
    requires id in w.row.timers && w.row.timers[id] == Seconds(expiry)
    requires id !in w.found && !HasId(w.row.history, id)
    requires Reached(wf, w, moves).iteration == w.iteration && HasId(Reached(wf, w, moves).row.history, id)
    ensures expiry < Reached(wf, w, moves).now + SECOND
  {
    hide WellNamed, SleepsAlone, SoundWorld, PossibleRun, Reached, HasId, SleepId;
    RunNotEarly(wf, w, moves, id, Seconds(expiry));
    SecondsBounds(expiry);
    SecondsBounds(Reached(wf, w, moves).now);
  }

  /** The expiry of a timer is the moment of its registration plus the duration of the sleep. */
  lemma {:induction false} SleepExpires(
    wf: Workflow, seen: seq<Outcome>, cache: map<string, Outcome>, env: Env, fuel: nat)
    requires Exec(wf, seen, cache, env, fuel).end.SleepsUntil?
    ensures var end := Exec(wf, seen, cache, env, fuel).end;
            exists at :: wf(at).Sleep? && end.id == IdOf(wf, at) && end.expires == env.now + wf(at).duration
    decreases fuel
  {
    hide IdOf;
    var c := wf(seen);
    if IdOf(wf, seen) in cache {
      SleepExpires(wf, seen + [CachedOutcome(c, cache[IdOf(wf, seen)])], cache, env, fuel - 1);
    } else if !Suspends(c, IdOf(wf, seen), env) {
      var o := PerformedOutcome(c, IdOf(wf, seen), env);
      SleepExpires(wf, seen + [o], cache[IdOf(wf, seen) := o], env, fuel - 1);
    }
  }
}
