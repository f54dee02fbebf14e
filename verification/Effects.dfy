/** What every step leaves, column by column, wherever it dies. */
module Effects {
  import opened Prelude
  import opened ActivityIds
  import opened Clock
  import opened Locks
  import opened Tables
  import opened Workflows
  import opened Replay
  import opened Saga
  import opened Machine
  import opened Integrity
  import opened Safety

  /** A history with one event more, unless its id is there already. */
  function Plus(history: seq<Event>, e: Event): seq<Event> {
    if exists i :: 0 <= i < |history| && history[i].activityId == e.activityId then history else history + [e]
  }

  lemma PlusIsAppended(history: seq<Event>, e: Event)
    ensures Plus(history, e) == Appended(history, e)
  {
  }

  /** Every subscription but that of the channel is as it was; that one waits no more. */
  function NoLonger(subscriptions: map<string, Option<Wait>>, channel: string): map<string, Option<Wait>> {
    map ch | ch in subscriptions :: if ch == channel then None else subscriptions[ch]
  }

  /** A handled timer: the lock, then its row is gone, then its completion recorded; the lock stays held. */
  lemma TimerFires(wf: Workflow, w: World, step: Step, cut: nat)
    requires w.row.tx.None? && step.Firing? && Acts(w, step)
    ensures Next(wf, w, step, cut) ==
            w.(row := w.row.(
              lock := if cut < 1 then w.row.lock else Locked(step.worker, step.expires),
              timers := if cut < 2 then w.row.timers else w.row.timers - {step.id},
              history := if cut < 3 then w.row.history
                         else Plus(w.row.history, Event(step.id, ActivityCompleted, Json("")))))
  {
    hide ApplyAll, After, Plus;
    var e := Event(step.id, ActivityCompleted, Json(""));
    var all := [Acquire(step.worker, step.expires), DropTimer(step.id), Append(e)];
    assert Actions(wf, w, step) == all;
    LeftStays(w, all, Clip(cut, all));
    WalkThree(w.row, all[0], all[1], all[2], Clip(cut, all));
    PlusIsAppended(w.row.history, e);
  }

  /** Recording an answer: the lock, the record, the end of the wait, the status, and the lock is free. */
  lemma AnswerRow(r: Row, worker: string, expires: nat, e: Event, channel: string, cut: nat)
    requires r.tx.None? && cut <= 5
    ensures After(r, AnswerActions(worker, expires, e, channel), cut) ==
            r.(lock := if cut < 1 then r.lock else if cut < 5 then Locked(worker, expires) else Unlocked,
               history := if cut < 2 then r.history else Plus(r.history, e),
               subscriptions := if cut < 3 then r.subscriptions else NoLonger(r.subscriptions, channel),
               status := if cut < 4 then r.status else Running)
  {
    hide ApplyAll, After, Plus, Write, NoLonger;
    var first, second := [Acquire(worker, expires), Append(e)], [ClearWaiting(channel), SetStatus(Running), ReleaseBy(worker)];
    assert AnswerActions(worker, expires, e, channel) == first + second;
    CutConcat(r, first, second, cut);
    WalkTwo(r, first[0], first[1], if cut <= 2 then cut else 2);
    WalkThree(Write(Write(r, first[0]), first[1]), second[0], second[1], second[2], if cut <= 2 then 0 else cut - 2);
    AnswerWritten(r, worker, expires, e, channel);
  }

  lemma AnswerWritten(r: Row, worker: string, expires: nat, e: Event, channel: string)
    ensures var r1 := Write(r, Acquire(worker, expires));
            var r2 := Write(r1, Append(e));
            var r3 := Write(r2, ClearWaiting(channel));
            var r4 := Write(r3, SetStatus(Running));
            && r1 == r.(lock := Locked(worker, expires)) && r2 == r1.(history := Plus(r.history, e))
            && r3 == r2.(subscriptions := NoLonger(r.subscriptions, channel)) && r4 == r3.(status := Running)
            && Write(r4, ReleaseBy(worker)) == r4.(lock := Unlocked)
  {
    hide Plus, Appended;
    PlusIsAppended(r.history, e);
    assert channel in r.subscriptions ==> r.subscriptions[channel := None] == NoLonger(r.subscriptions, channel);
    assert channel !in r.subscriptions ==> r.subscriptions == NoLonger(r.subscriptions, channel);
  }

  /** What an answer leaves in the world. */
  lemma AnswerLeaves(wf: Workflow, w: World, step: Step, worker: string, expires: nat, e: Event, channel: string, cut: nat)
    requires w.row.tx.None? && !step.Polling? && !step.Passing?
    requires Actions(wf, w, step) == AnswerActions(worker, expires, e, channel)
    ensures Next(wf, w, step, cut) ==
            w.(row := w.row.(
              lock := if cut < 1 then w.row.lock else if cut < 5 then Locked(worker, expires) else Unlocked,
              history := if cut < 2 then w.row.history else Plus(w.row.history, e),
              subscriptions := if cut < 3 then w.row.subscriptions else NoLonger(w.row.subscriptions, channel),
              status := if cut < 4 then w.row.status else Running))
  {
    hide Actions, After, Plus, NoLonger;
    var all := AnswerActions(worker, expires, e, channel);
    LeftStays(w, all, Clip(cut, all));
    AnswerRow(w.row, worker, expires, e, channel, Clip(cut, all));
  }

  /**
   * A delivered message: the lock and nothing else if there is no subscription or the message's id is
   * taken; else the message is recorded - under the id of the receive if there is one that waits, else
   * under one of the channel and the message - the wait ends, and the instance runs on.
   */
  lemma MessageArrives(wf: Workflow, w: World, step: Step, cut: nat)
    requires w.row.tx.None? && step.Delivering? && Acts(w, step)
    ensures var r := w.row;
            var wait := if step.channel in r.subscriptions then r.subscriptions[step.channel] else None;
            var id := if wait.Some? && wait.value.activityId != "" then wait.value.activityId
                      else "channel:" + step.channel + ":" + Decimal(step.message);
            var taken := exists i :: 0 <= i < |r.history| && r.history[i].activityId == id;
            var refused := step.channel !in r.subscriptions || taken;
            var locked := Locked(step.worker, step.expires);
            Next(wf, w, step, cut) ==
              if refused then w.(row := r.(lock := if cut < 1 then r.lock else if cut < 2 then locked else Unlocked))
              else w.(row := r.(
                     lock := if cut < 1 then r.lock else if cut < 5 then locked else Unlocked,
                     history := if cut < 2 then r.history else r.history + [Event(id, ChannelMessageReceived, Json(step.text))],
                     subscriptions := if cut < 3 then r.subscriptions else NoLonger(r.subscriptions, step.channel),
                     status := if cut < 4 then r.status else Running))
  {
    hide ApplyAll, After, NoLonger;
    assert Render("channel:" + step.channel, step.message) == "channel:" + step.channel + ":" + Decimal(step.message);
    if Refused(w.row, step.channel, step.message) {
      var all := [Acquire(step.worker, step.expires), ReleaseBy(step.worker)];
      LeftStays(w, all, Clip(cut, all));
      WalkTwo(w.row, all[0], all[1], Clip(cut, all));
    } else {
      AnswerLeaves(wf, w, step, step.worker, step.expires,
        DeliveryEvent(w.row, step.channel, step.message, step.text), step.channel, cut);
    }
  }

  /** A timed-out receive: the timeout is recorded under its id, the wait ends, and the instance runs on. */
  lemma ReceiveTimesOut(wf: Workflow, w: World, step: Step, cut: nat)
    requires w.row.tx.None? && step.TimingOut? && Acts(w, step)
    ensures Next(wf, w, step, cut) ==
            w.(row := w.row.(
              lock := if cut < 1 then w.row.lock else if cut < 5 then Locked(step.worker, step.expires) else Unlocked,
              history := if cut < 2 then w.row.history
                         else Plus(w.row.history, Event(step.id, MessageTimeout, Json(step.text))),
              subscriptions := if cut < 3 then w.row.subscriptions else NoLonger(w.row.subscriptions, step.channel),
              status := if cut < 4 then w.row.status else Running))
  {
    hide ApplyAll, After, NoLonger, Plus;
    AnswerLeaves(wf, w, step, step.worker, step.expires, Event(step.id, MessageTimeout, Json(step.text)), step.channel, cut);
  }

  /** A restart: locked, running, and free. */
  lemma InstanceRestarts(wf: Workflow, w: World, step: Step, cut: nat)
    requires w.row.tx.None? && step.Restarting? && Acts(w, step)
    ensures Next(wf, w, step, cut) ==
            w.(row := w.row.(
              lock := if cut < 1 then w.row.lock else if cut < 3 then Locked(step.worker, step.expires) else Unlocked,
              status := if cut < 2 then w.row.status else Running))
  {
    hide ApplyAll, After;
    var all := [Acquire(step.worker, step.expires), SetStatus(Running), ReleaseBy(step.worker)];
    LeftStays(w, all, Clip(cut, all));
    WalkThree(w.row, all[0], all[1], all[2], Clip(cut, all));
  }

  /**
   * A cancellation of an instance that was seen unfinished: locked, rolled back, cancelled unless it has
   * ended in between, and released; one that was seen finished is left alone.
   */
  lemma InstanceIsCancelled(wf: Workflow, w: World, step: Step, cut: nat)
    requires w.row.tx.None? && step.Cancelling? && Acts(w, step) && cut <= |Actions(wf, w, step)|
    ensures var r, finished, rollback := w.row, {Completed, Failed, Cancelled}, RollbackActions(w.row, step.errors);
            var locked, n := r.(lock := Locked(step.worker, step.expires)), |rollback|;
            if step.seen in finished then Next(wf, w, step, cut) == w
            else
              && |Actions(wf, w, step)| == n + (if r.status in finished then 2 else 3)
              && Next(wf, w, step, cut) ==
                   w.(row := if cut < 1 then r
                             else if cut <= n + 1 then locked.(history := After(locked, rollback, cut - 1).history)
                             else locked.(
                               history := ApplyAll(locked, rollback).history,
                               status := if r.status in finished then r.status else Cancelled,
                               lock := if cut == |Actions(wf, w, step)| then Unlocked else locked.lock))
  {
    hide ApplyAll, After, RollbackActions;
    if Terminal(step.seen) {
      LeftNothing(w);
    } else {
      var acquire, rollback := Acquire(step.worker, step.expires), RollbackActions(w.row, step.errors);
      var end := CancelEnd(w.row.status, step.worker);
      var locked := w.row.(lock := Locked(step.worker, step.expires));
      CancelShape(wf, w, step);
      CancelClearsNothing(w.row, step.errors, step.worker);
      LeftStays(w, [acquire] + (rollback + end), cut);
      Walk(w.row, acquire, rollback + end, cut);
      RollbackAppends(locked, w.row, step.errors, if 1 <= cut <= |rollback| + 1 then cut - 1 else 0);
      var undone := ApplyAll(locked, rollback);
      if 1 <= cut {
        CutConcat(locked, rollback, end, cut - 1);
        if |rollback| + 1 < cut {
          if Terminal(w.row.status) {
            Walk(undone, ReleaseBy(step.worker), [], 1);
            assert end == [ReleaseBy(step.worker)] + [];
            AfterNone(Write(undone, ReleaseBy(step.worker)));
          } else {
            WalkTwo(undone, SetStatus(Cancelled), ReleaseBy(step.worker), cut - 1 - |rollback|);
          }
        }
      }
    }
  }

  /** A rollback, cut anywhere, only adds to the history. */
  lemma RollbackAppends(r: Row, r0: Row, errors: Compensation -> Option<string>, cut: nat)
    requires r.tx.None? && cut <= |RollbackActions(r0, errors)|
    ensures var r' := ApplyAll(r, RollbackActions(r0, errors)); r' == r.(history := r'.history) && r.history <= r'.history
    ensures var r' := After(r, RollbackActions(r0, errors), cut); r' == r.(history := r'.history) && r.history <= r'.history
  {
    hide ApplyAll, Lifo, ExecutedIds;
    PassShape(Lifo(r0.compensations), ExecutedIds(r0.history), errors);
    OnlyAppends(r, RollbackActions(r0, errors));
    OnlyAppends(r, RollbackActions(r0, errors)[..cut]);
  }

  lemma {:induction false} OnlyAppends(r: Row, actions: seq<Action>)
    requires r.tx.None? && forall i :: 0 <= i < |actions| ==> actions[i].Call? || actions[i].Append?
    ensures var r' := ApplyAll(r, actions); r' == r.(history := r'.history) && r.history <= r'.history
  {
    if actions != [] {
      OnlyAppends(r, actions[..|actions| - 1]);
    }
  }

  // ---- How executions end ----

  /**
   * What follows workflow code, from the row it has left, locked by its worker: the value and with it
   * the status; the rollback, the failure's record, the status; the archive, the deletions, the record
   * of the new input, the status; the timer and the status; the wait and the status; and at last the
   * lock is free.
   */
  lemma ConclusionRow(r: Row, end: End, worker: string, env: Env, cut: nat)
    requires r.tx.None? && r.lock.Locked? && r.lock.owner == worker && cut <= |Conclusion(r, end, worker, env)|
    ensures var r', all := After(r, Conclusion(r, end, worker, env), cut), |Conclusion(r, end, worker, env)|;
            var lock := if cut < all then r.lock else Unlocked;
            match end
            case Returned(value) =>
              all == 3 && r' == if cut < 1 then r else r.(lock := lock, status := Completed, output := value)
            case Raised(message) =>
              var rollback := RollbackActions(r, env.compensate);
              && all == |rollback| + 3
              && r' == if cut <= |rollback| then r.(history := After(r, rollback, cut).history)
                       else r.(lock := lock, status := if cut < all - 1 then r.status else Failed,
                               history := Plus(ApplyAll(r, rollback).history, Event("", WorkflowFailed, Json(message))))
            case Recurs(input) =>
              && all == 7
              && r' == r.(lock := lock, status := if cut < 6 then r.status else Recurred,
                          archive := if cut < 1 then r.archive else r.archive + r.history,
                          history := if cut < 2 then r.history
                                     else if cut < 5 then [] else [Event("recur", ActivityCompleted, Json(input))],
                          timers := if cut < 3 then r.timers else map[],
                          subscriptions := if cut < 4 then r.subscriptions else map[])
            case SleepsUntil(id, expires) =>
              && all == 3
              && r' == r.(lock := lock, status := if cut < 2 then r.status else WaitingForTimer,
                          timers := if cut < 1 || id in r.timers then r.timers else r.timers[id := expires / 1_000_000_000])
            case WaitsFor(channel, id, timeoutAt) =>
              var wait := Wait(id, if timeoutAt.None? then None else Some(timeoutAt.value / 1_000_000_000));
              && all == 3
              && r' == r.(lock := lock, status := if cut < 2 then r.status else WaitingForMessage,
                          subscriptions := if cut < 1 || channel !in r.subscriptions then r.subscriptions
                                           else r.subscriptions[channel := Some(wait)])
            case Exhausted => all == 0 && r' == r
  {
    hide ApplyAll, After, RollbackActions, Plus, Write;
    match end
    case Returned(v) => ReturnedRow(r, v, worker, cut);
    case Raised(m) => RaisedRow(r, m, worker, env, cut);
    case Recurs(input) => RecurRows(r, input, worker, cut);
    case SleepsUntil(id, expires) => SleepingRow(r, id, expires, worker, cut);
    case WaitsFor(ch, id, t) => WaitingRow(r, ch, id, t, worker, cut);
    case Exhausted => AfterNone(r);
  }

  lemma ReturnedRow(r: Row, value: string, worker: string, cut: nat)
    requires r.tx.None? && r.lock.Locked? && r.lock.owner == worker && cut <= 3
    ensures After(r, [SetOutput(value), SetStatus(Completed), ReleaseBy(worker)], cut) ==
            if cut < 1 then r
            else r.(lock := if cut < 3 then r.lock else Unlocked, status := Completed, output := value)
  {
    hide ApplyAll, After;
    WalkThree(r, SetOutput(value), SetStatus(Completed), ReleaseBy(worker), cut);
  }

  lemma SleepingRow(r: Row, id: string, expires: nat, worker: string, cut: nat)
    requires r.tx.None? && r.lock.Locked? && r.lock.owner == worker && cut <= 3
    ensures After(r, [PutTimer(id, Seconds(expires)), SetStatus(WaitingForTimer), ReleaseBy(worker)], cut) ==
            r.(lock := if cut < 3 then r.lock else Unlocked, status := if cut < 2 then r.status else WaitingForTimer,
               timers := if cut < 1 || id in r.timers then r.timers else r.timers[id := expires / 1_000_000_000])
  {
    hide ApplyAll, After;
    WalkThree(r, PutTimer(id, Seconds(expires)), SetStatus(WaitingForTimer), ReleaseBy(worker), cut);
  }

  lemma WaitingRow(r: Row, channel: string, id: string, timeoutAt: Option<nat>, worker: string, cut: nat)
    requires r.tx.None? && r.lock.Locked? && r.lock.owner == worker && cut <= 3
    ensures var wait := Wait(id, if timeoutAt.None? then None else Some(timeoutAt.value / 1_000_000_000));
            var all := [SetWaiting(channel, Wait(id, StoredTimeout(timeoutAt))), SetStatus(WaitingForMessage), ReleaseBy(worker)];
            After(r, all, cut) ==
            r.(lock := if cut < 3 then r.lock else Unlocked, status := if cut < 2 then r.status else WaitingForMessage,
               subscriptions := if cut < 1 || channel !in r.subscriptions then r.subscriptions
                                else r.subscriptions[channel := Some(wait)])
  {
    hide ApplyAll, After;
    WalkThree(r, SetWaiting(channel, Wait(id, StoredTimeout(timeoutAt))), SetStatus(WaitingForMessage), ReleaseBy(worker), cut);
  }

  lemma RaisedRow(r: Row, message: string, worker: string, env: Env, cut: nat)
    requires r.tx.None? && r.lock.Locked? && r.lock.owner == worker && cut <= |Conclusion(r, Raised(message), worker, env)|
    ensures var r', rollback := After(r, Conclusion(r, Raised(message), worker, env), cut), RollbackActions(r, env.compensate);
            && |Conclusion(r, Raised(message), worker, env)| == |rollback| + 3
            && r' == if cut <= |rollback| then r.(history := After(r, rollback, cut).history)
                     else r.(lock := if cut < |rollback| + 3 then r.lock else Unlocked,
                             status := if cut < |rollback| + 2 then r.status else Failed,
                             history := Plus(ApplyAll(r, rollback).history, Event("", WorkflowFailed, Json(message))))
  {
    hide ApplyAll, After, RollbackActions, Plus, Appended;
    var rollback, e := RollbackActions(r, env.compensate), Event("", WorkflowFailed, Json(message));
    var rest := [Append(e), SetStatus(Failed), ReleaseBy(worker)];
    RollbackAppends(r, r, env.compensate, if cut <= |rollback| then cut else 0);
    var undone := ApplyAll(r, rollback);
    CutConcat(r, rollback, rest, cut);
    PlusIsAppended(undone.history, e);
    if |rollback| < cut {
      WalkThree(undone, rest[0], rest[1], rest[2], cut - |rollback|);
    }
  }

  /**
   * A resumption: locked, set running, then what workflow code does over the records, then how it ends.
   */
  lemma InstanceResumes(wf: Workflow, w: World, step: Step, cut: nat)
    requires w.row.tx.None? && step.Resuming? && Acts(w, step) && cut <= |Actions(wf, w, step)|
    ensures var locked := w.row.(lock := Locked(step.worker, step.expires));
            var started := locked.(status := Running);
            var plan := Exec(wf, [], CacheOf(w.row.history), step.env, step.fuel);
            var ran, n := ApplyAll(started, plan.actions), |plan.actions| + 2;
            var end := Conclusion(ran, plan.end, step.worker, step.env);
            && ran.tx.None? && ran.lock == started.lock && ran.status == Running
            && ran.output == w.row.output && ran.archive == w.row.archive && ran.timers == w.row.timers
            && |Actions(wf, w, step)| == n + |end|
            && Next(wf, w, step, cut).row ==
                 if cut < 1 then w.row else if cut < 2 then locked
                 else if cut <= n then After(started, plan.actions, cut - 2) else After(ran, end, cut - n)
  {
    hide ApplyAll, After, Exec, Conclusion, CacheOf, Write, OfWorkflow;
    var first := [Acquire(step.worker, step.expires), SetStatus(Running)];
    var started := Started(w.row, step.worker, step.expires);
    var plan := Exec(wf, [], CacheOf(w.row.history), step.env, step.fuel);
    StartedWrites(w.row, step.worker, step.expires);
    WalkTwo(w.row, first[0], first[1], if cut <= 2 then cut else 2);
    CutConcat(w.row, first, ExecutionActions(wf, started, step.worker, step.env, step.fuel), cut);
    var ran := ApplyAll(started, plan.actions);
    if 2 <= cut {
      CutConcat(started, plan.actions, Conclusion(ran, plan.end, step.worker, step.env), cut - 2);
    }
    ExecCloses(wf, started, [], CacheOf(w.row.history), step.env, step.fuel);
    ExecShape(wf, [], CacheOf(w.row.history), step.env, step.fuel);
    OfWorkflowApplied(started, plan.actions);
  }

  lemma StartedWrites(r: Row, worker: string, expires: nat)
    ensures Write(r, Acquire(worker, expires)) == r.(lock := Locked(worker, expires))
    ensures Write(Write(r, Acquire(worker, expires)), SetStatus(Running)) == Started(r, worker, expires)
  {
  }

  /** A cleaned-up instance: its lock is gone, and if it was listed and may be resumed, it is. */
  lemma LockIsCleared(wf: Workflow, w: World, step: Step, cut: nat)
    requires w.row.tx.None? && step.Cleaning? && Acts(w, step) && 1 <= cut
    ensures var free, resume :=
              w.(row := w.row.(lock := Unlocked)), Resuming(step.worker, step.expires, step.env, step.fuel);
            Next(wf, w, step, cut) ==
              if step.listed && w.row.status in {Running, WaitingForTimer} then Next(wf, free, resume, cut - 1) else free
    ensures Next(wf, w, step, 0) == w
  {
    hide ApplyAll, After, ResumeActions, Left;
    var free, all := w.(row := w.row.(lock := Unlocked)), Actions(wf, w, step);
    assert all == [BreakLock] + all[1..];
    LeftConcat(w, [BreakLock], all[1..], Clip(cut, all));
    LeftConcat(w, [BreakLock], all[1..], 0);
    Walk(w.row, BreakLock, [], 0);
    assert [BreakLock] + [] == [BreakLock];
    ApplyNone(free.row);
    LeftNothing(free);
  }

  // ---- Who may act, and what polls find ----

  /** A handler acts if the lock is free, its worker's own, or expired in the past second; the cleanup only then. */
  lemma ActsExactly(w: World, step: Step)
    requires !step.Polling? && !step.Passing?
    ensures var lapsed := w.row.lock.Locked? && w.row.lock.expires < w.now / 1_000_000_000;
            Acts(w, step) <==>
              lapsed || (!step.Cleaning? && (w.row.lock.Unlocked? || w.row.lock.owner == step.worker))
  {
  }

  /** Polls add the timers whose second has come, and the waits whose second has passed, to what was found. */
  lemma PollFinds(wf: Workflow, w: World, cut: nat)
    ensures var w', second := Next(wf, w, Polling, cut), w.now / 1_000_000_000;
            && w'.row == w.row && w'.now == w.now
            && (forall id :: id in w'.found <==> id in w.found || (id in w.row.timers && w.row.timers[id] <= second))
            && (forall l: Late :: l in w'.foundLate <==>
                  || l in w.foundLate
                  || (&& l.channel in w.row.subscriptions && l.activityId != ""
                      && exists t: nat :: w.row.subscriptions[l.channel] == Some(Wait(l.activityId, Some(t))) && t < second))
  {
    forall l: Late ensures l in Next(wf, w, Polling, cut).foundLate <==>
                             || l in w.foundLate
                             || (&& l.channel in w.row.subscriptions && l.activityId != ""
                                 && exists t: nat :: w.row.subscriptions[l.channel] == Some(Wait(l.activityId, Some(t)))
                                                && t < w.now / 1_000_000_000)
    {
      LateExactly(w.row, w.now, l);
    }
  }

  lemma LateExactly(r: Row, now: nat, l: Late)
    ensures l in LateWaits(r, now) <==>
            && l.channel in r.subscriptions && l.activityId != ""
            && exists t: nat :: r.subscriptions[l.channel] == Some(Wait(l.activityId, Some(t))) && t < now / 1_000_000_000
  {
    if l in LateWaits(r, now) {
      var wait := r.subscriptions[l.channel].value;
      assert r.subscriptions[l.channel] == Some(Wait(l.activityId, Some(wait.timeoutAt.value)));
    }
    if l.channel in r.subscriptions && r.subscriptions[l.channel].Some? && IsLate(r, now, l) {
      assert l == Late(l.channel, r.subscriptions[l.channel].value.activityId);
    }
  }
}
