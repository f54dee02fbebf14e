/**
 * The compensation table over whole runs: ids grow, timestamps do not fall, and a record under
 * a compensation's id is always its result.  So every rollback finds what saga rollback needs.
 */
module Registration {
  import opened Prelude
  import opened ActivityIds
  import opened Clock
  import opened Locks
  import opened Tables
  import opened Workflows
  import opened Replay
  import opened Saga
  import opened Machine
  import opened Integrity
  import opened Accounts
  import opened Reachable

  // ---- Ids and timestamps ----

  /** Compensations are registered under the timestamp `at` only. */
  predicate Stamped(actions: seq<Action>, at: nat) {
    forall a :: a in actions && a.AddCompensation? ==> a.createdAt == at
  }

  predicate InOrder(r: Row, at: nat) {
    && InClockOrder(r.compensations)
    && (forall i :: 0 <= i < |r.compensations| ==>
          r.compensations[i].id < r.nextCompensation && r.compensations[i].createdAt <= at)
    && (r.tx.Some? ==> Stamped(r.tx.value, at))
  }

  lemma WriteInOrder(r: Row, a: Action, at: nat)
    requires InOrder(r, at) && (a.AddCompensation? ==> a.createdAt == at)
    ensures InOrder(Write(r, a), at) && Write(r, a).tx == r.tx
  {
  }

  lemma {:induction false} WritesInOrder(r: Row, actions: seq<Action>, at: nat)
    requires InOrder(r, at) && Stamped(actions, at)
    ensures InOrder(WriteAll(r, actions), at)
  {
    hide Write, InOrder;
    if actions != [] {
      WritesInOrder(r, actions[..|actions| - 1], at);
      WriteInOrder(WriteAll(r, actions[..|actions| - 1]), actions[|actions| - 1], at);
    }
  }

  lemma ApplyInOrder(r: Row, a: Action, at: nat)
    requires InOrder(r, at) && (a.AddCompensation? ==> a.createdAt == at)
    ensures InOrder(Apply(r, a), at)
  {
    if a.Commit? && r.tx.Some? {
      WritesInOrder(r.(tx := None), r.tx.value, at);
    } else if !a.Begin? && !a.Rollback? && !a.Commit? && !(r.tx.Some? && Buffered(a)) {
      WriteInOrder(r, a, at);
    }
  }

  lemma {:induction false} ActionsInOrder(r: Row, actions: seq<Action>, at: nat)
    requires InOrder(r, at) && Stamped(actions, at)
    ensures InOrder(ApplyAll(r, actions), at)
  {
    hide Apply, InOrder;
    if actions != [] {
      ActionsInOrder(r, actions[..|actions| - 1], at);
      ApplyInOrder(ApplyAll(r, actions[..|actions| - 1]), actions[|actions| - 1], at);
    }
  }

  lemma CrashInOrder(r: Row, at: nat)
    requires InOrder(r, at)
    ensures InOrder(Crash(r), at)
  {
  }

  lemma CallStamps(c: Call, id: string, env: Env)
    requires c.Activity? || (c.WaitEvent? && env.pending(id).Some?)
    ensures Stamped(Perform(c, id, env), Millis(env.now)) && Stamped(Preparation(c), Millis(env.now))
  {
    hide ActivityEvent;
  }

  lemma {:induction false} ExecStamps(
    wf: Workflow, seen: seq<Outcome>, cache: map<string, Outcome>, env: Env, fuel: nat)
    ensures Stamped(Exec(wf, seen, cache, env, fuel).actions, Millis(env.now))
    decreases fuel
  {
    hide IdOf, Perform;
    if fuel > 0 && !Ends(wf(seen)) {
      var c, id := wf(seen), IdOf(wf, seen);
      if id in cache {
        ExecStamps(wf, seen + [CachedOutcome(c, cache[id])], cache, env, fuel - 1);
      } else if !Suspends(c, id, env) {
        var o := PerformedOutcome(c, id, env);
        CallStamps(c, id, env);
        ExecStamps(wf, seen + [o], cache[id := o], env, fuel - 1);
      }
    }
  }

  /** A list of statements that registers nothing. */
  predicate RegistersNothing(actions: seq<Action>) {
    forall a :: a in actions ==> !a.AddCompensation?
  }

  lemma RollbackRegistersNothing(r: Row, errors: Compensation -> Option<string>)
    ensures RegistersNothing(RollbackActions(r, errors))
  {
    PassShape(Lifo(r.compensations), ExecutedIds(r.history), errors);
  }

  lemma ConclusionRegistersNothing(r: Row, end: End, worker: string, env: Env)
    ensures RegistersNothing(Conclusion(r, end, worker, env))
  {
    hide RollbackActions;
    RollbackRegistersNothing(r, env.compensate);
  }

  lemma ResumeStamps(wf: Workflow, r: Row, worker: string, expires: nat, env: Env, fuel: nat)
    ensures Stamped(ResumeActions(wf, r, worker, expires, env, fuel), Millis(env.now))
  {
    hide Exec, Conclusion, ApplyAll;
    var started := Started(r, worker, expires);
    var plan := Exec(wf, [], CacheOf(started.history), env, fuel);
    ExecStamps(wf, [], CacheOf(started.history), env, fuel);
    ConclusionRegistersNothing(ApplyAll(started, plan.actions), plan.end, worker, env);
  }

  lemma ActionsStamped(wf: Workflow, w: World, step: Step)
    requires Possible(w, step)
    ensures Stamped(Actions(wf, w, step), Millis(w.now))
  {
    hide ResumeActions, RollbackActions, HasId;
    if step.Resuming? {
      ResumeStamps(wf, w.row, step.worker, step.expires, step.env, step.fuel);
    } else if step.Cleaning? {
      ResumeStamps(wf, w.row.(lock := Unlocked), step.worker, step.expires, step.env, step.fuel);
    } else if step.Cancelling? {
      RollbackRegistersNothing(w.row, step.errors);
    }
  }

  lemma MillisMonotone(a: nat, b: nat)
    requires a <= b
    ensures Millis(a) <= Millis(b)
  {
  }

  lemma LaterInOrder(r: Row, at: nat, at': nat)
    requires InOrder(r, at) && at <= at' && r.tx.None?
    ensures InOrder(r, at')
  {
  }

  lemma SomeStamped(actions: seq<Action>, k: nat, at: nat)
    requires Stamped(actions, at) && k <= |actions|
    ensures Stamped(actions[..k], at)
  {
  }

  lemma StepInOrder(wf: Workflow, w: World, step: Step, cut: nat)
    requires InOrder(w.row, Millis(w.now)) && w.row.tx.None? && Possible(w, step)
    ensures var w' := Next(wf, w, step, cut); InOrder(w'.row, Millis(w'.now)) && w'.row.tx.None?
  {
    hide Actions, InOrder, ApplyAll, Stamped;
    if step.Passing? {
      MillisMonotone(w.now, w.now + step.duration);
      LaterInOrder(w.row, Millis(w.now), Millis(w.now + step.duration));
    } else if !step.Polling? {
      var all := Actions(wf, w, step);
      var k := Clip(cut, all);
      ActionsStamped(wf, w, step);
      SomeStamped(all, k, Millis(w.now));
      ActionsInOrder(w.row, all[..k], Millis(w.now));
      CrashInOrder(ApplyAll(w.row, all[..k]), Millis(w.now));
    }
  }

  lemma {:induction false} RunInOrder(wf: Workflow, w: World, moves: seq<Move>)
    requires InOrder(w.row, Millis(w.now)) && w.row.tx.None? && PossibleRun(wf, w, moves)
    ensures var w' := Reached(wf, w, moves); InOrder(w'.row, Millis(w'.now))
    decreases |moves|
  {
    hide Possible, Next, InOrder;
    if moves != [] {
      StepInOrder(wf, w, moves[0].step, moves[0].cut);
      RunInOrder(wf, Next(wf, w, moves[0].step, moves[0].cut), moves[1..]);
    }
  }

  lemma NewInOrder()
    ensures InOrder(NEW.row, Millis(NEW.now))
  {
  }

  // ---- Records of results ----

  /** A record under a compensation's id is that compensation's result. */
  lemma OnlyResults(r: Row, id: nat)
    requires FormedRow(r) && HasId(r.history, RecordId(id))
    ensures id in ExecutedIds(r.history)
  {
    hide Render;
    var i :| 0 <= i < |r.history| && r.history[i].activityId == RecordId(id);
    var e := r.history[i];
    assert Proper(e);
    ResultIdsAreClaimed(id);
    if Cacheable(e) {
      var name, n :| Unreserved(name) && e.activityId == Render(name, n);
      RenderInjective("compensation", id, name, n);
    } else if e.kind.CompensationExecuted? || e.kind.CompensationFailed? {
      RenderInjective("compensation", id, "compensation", e.data.compensationId);
    }
  }

  lemma ResultIdsAreClaimed(id: nat)
    ensures !Unclaimed(RecordId(id)) && RecordId(id) != "recur" && RecordId(id) != ""
  {
    assert RecordId(id)[1] == 'o' && "channel:"[1] == 'h' && "recur"[0] == 'r' && RecordId(id)[0] == 'c';
  }

  lemma RowIsReady(r: Row, at: nat)
    requires FormedRow(r) && r.tx.None? && InOrder(r, at)
    ensures Ready(r) && InClockOrder(r.compensations)
  {
    hide FormedRow, HasId, ExecutedIds;
    forall i | 0 <= i < |r.compensations| && HasId(r.history, RecordId(r.compensations[i].id))
      ensures r.compensations[i].id in ExecutedIds(r.history)
    {
      OnlyResults(r, r.compensations[i].id);
    }
  }

  /**
   * In every state a possible run reaches, a rollback finds distinct entries in the order of
   * their registration, and no foreign record under their ids: what RollbackSurvivesCrashes and
   * ResultsReverseRegistration ask for.
   */
  lemma RollbackIsReady(wf: Workflow, moves: seq<Move>)
    requires WellNamed(wf) && PossibleRun(wf, NEW, moves)
    ensures var r := Reached(wf, NEW, moves).row; Ready(r) && InClockOrder(r.compensations)
  {
    hide WellNamed, PossibleRun, Reached, FormedRow, InOrder;
    var w := Reached(wf, NEW, moves);
    NewIsSound(wf);
    RunSound(wf, NEW, moves);
    SoundIsClear(wf, w.base, w.row);
    NewInOrder();
    RunInOrder(wf, NEW, moves);
    RowIsReady(w.row, Millis(w.now));
  }

  // ---- User code is called only while it has no record ----

  /** In a pass: what is about to be attempted has no record yet. */
  lemma {:induction false} PassCallsUnrecorded(
    r: Row, entries: seq<Compensation>, executed: set<nat>, errors: Compensation -> Option<string>, cut: nat)
    requires r.tx.None? && DistinctIds(entries)
    requires forall i :: 0 <= i < |entries| && entries[i].id !in executed ==> !HasId(r.history, RecordId(entries[i].id))
    requires var all := PassActions(entries, executed, errors); cut < |all| && all[cut].Call?
    ensures var all := PassActions(entries, executed, errors);
            !HasId(After(r, all, cut).history, all[cut].id)
    decreases |entries|
  {
    hide ApplyAll, HasId, ResultEvent, Write, After, RecordId;
    var rest := PassActions(entries[1..], executed, errors);
    if entries[0].id in executed {
      assert PassActions(entries, executed, errors) == rest;
      PassCallsUnrecorded(r, entries[1..], executed, errors, cut);
    } else {
      var call, e := Call(RecordId(entries[0].id)), ResultEvent(entries[0], errors(entries[0]));
      var all := PassActions(entries, executed, errors);
      assert all == [call] + ([Append(e)] + rest);
      WritesNothing(r, call);
      Walk(r, call, [Append(e)] + rest, cut);
      if cut >= 2 {
        Walk(r, Append(e), rest, cut - 1);
        var next := Write(r, Append(e));
        forall i | 0 <= i < |entries[1..]| && entries[1..][i].id !in executed
          ensures !HasId(next.history, RecordId(entries[1..][i].id))
        {
          OtherRecord(r, entries[0], errors(entries[0]), entries[i + 1].id);
        }
        PassCallsUnrecorded(next, entries[1..], executed, errors, cut - 2);
      }
    }
  }

  lemma OtherRecord(r: Row, entry: Compensation, error: Option<string>, id: nat)
    requires id != entry.id && !HasId(r.history, RecordId(id))
    ensures !HasId(Write(r, Append(ResultEvent(entry, error))).history, RecordId(id))
  {
    RecordIdsDiffer(entry.id, id);
  }

  lemma RollbackCallsFresh(r: Row, at: nat, errors: Compensation -> Option<string>, cut: nat)
    requires FormedRow(r) && r.tx.None? && InOrder(r, at) && cut <= |RollbackActions(r, errors)|
    ensures CallsFresh(r, RollbackActions(r, errors), cut)
  {
    hide FormedRow, ApplyAll, After, HasId, ExecutedIds, PassActions, Lifo, RecordId;
    if cut < |RollbackActions(r, errors)| && RollbackActions(r, errors)[cut].Call? {
      var lifo, executed := Lifo(r.compensations), ExecutedIds(r.history);
      LifoKeepsIdsDistinct(r.compensations);
      forall i | 0 <= i < |lifo| && lifo[i].id !in executed ensures !HasId(r.history, RecordId(lifo[i].id)) {
        if HasId(r.history, RecordId(lifo[i].id)) {
          OnlyResults(r, lifo[i].id);
        }
      }
      PassCallsUnrecorded(r, lifo, executed, errors, cut);
    }
  }

  lemma NoneCalled(r: Row, actions: seq<Action>, cut: nat)
    requires cut <= |actions| && forall a :: a in actions ==> !a.Call?
    ensures CallsFresh(r, actions, cut)
  {
    hide HasId, After;
  }

  lemma ConclusionCallsFresh(r: Row, at: nat, end: End, worker: string, env: Env, cut: nat)
    requires FormedRow(r) && r.tx.None? && InOrder(r, at) && cut <= |Conclusion(r, end, worker, env)|
    ensures CallsFresh(r, Conclusion(r, end, worker, env), cut)
  {
    hide FormedRow, InOrder, ApplyAll, HasId, RollbackActions, CallsFresh;
    if end.Raised? {
      var first, second := RollbackActions(r, env.compensate),
        [Append(FailureEvent(end.message)), SetStatus(Failed), ReleaseBy(worker)];
      if cut <= |first| {
        RollbackCallsFresh(r, at, env.compensate, cut);
      } else {
        NoneCalled(ApplyAll(r, first), second, cut - |first|);
      }
      if cut == |first| {
        NoneCalled(ApplyAll(r, first), second, 0);
      }
      CallsFreshConcat(r, first, second, cut);
    } else {
      NoneCalled(r, Conclusion(r, end, worker, env), cut);
    }
  }

  lemma ExecutionCallsFresh(wf: Workflow, w: World, worker: string, env: Env, fuel: nat, cut: nat)
    requires WellNamed(wf) && SoundWorld(wf, w) && InOrder(w.row, Millis(w.now)) && env.now == w.now
    requires cut <= |ExecutionActions(wf, w.row, worker, env, fuel)|
    ensures CallsFresh(w.row, ExecutionActions(wf, w.row, worker, env, fuel), cut)
  {
    hide WellNamed, Exec, ApplyAll, After, Sound, InOrder, HasId, Conclusion, CallsFresh, FormedRow, Formed, Stamped,
         Covers;
    var plan := Exec(wf, [], CacheOf(w.row.history), env, fuel);
    var r' := ApplyAll(w.row, plan.actions);
    var second := Conclusion(r', plan.end, worker, env);
    SoundIsClear(wf, w.base, w.row);
    CacheCovers(w.row.history);
    ExecSound(wf, w.base, w.row, [], CacheOf(w.row.history), env, fuel, if cut <= |plan.actions| then cut else 0);
    SoundIsClear(wf, w.base, r');
    ExecFormed(wf, [], CacheOf(w.row.history), env, fuel);
    ActionsFormed(w.row, plan.actions);
    ExecStamps(wf, [], CacheOf(w.row.history), env, fuel);
    ActionsInOrder(w.row, plan.actions, Millis(w.now));
    if |plan.actions| <= cut {
      ConclusionCallsFresh(r', Millis(w.now), plan.end, worker, env, cut - |plan.actions|);
    }
    CallsFreshConcat(w.row, plan.actions, second, cut);
  }

  /** A world whose row is sound with its compensations in order. */
  ghost predicate Sane(wf: Workflow, w: World) {
    SoundWorld(wf, w) && InOrder(w.row, Millis(w.now))
  }

  lemma SaneTransfers(wf: Workflow, w: World, r': Row)
    requires Sane(wf, w) && r' == w.row.(lock := r'.lock, status := r'.status)
    ensures Sane(wf, w.(row := r'))
  {
    hide Books, Intact, Sound;
    SoundIsClear(wf, w.base, w.row);
    SoundTransfers(wf, w.base, w.row, r');
  }

  lemma ResumeCallsFresh(wf: Workflow, w: World, worker: string, expires: nat, env: Env, fuel: nat, cut: nat)
    requires WellNamed(wf) && Sane(wf, w) && env.now == w.now
    requires cut <= |ResumeActions(wf, w.row, worker, expires, env, fuel)|
    ensures CallsFresh(w.row, ResumeActions(wf, w.row, worker, expires, env, fuel), cut)
  {
    hide WellNamed, ApplyAll, Sound, FormedWorld, InOrder, HasId, ExecutionActions, CallsFresh;
    var first := [Acquire(worker, expires), SetStatus(Running)];
    var started := Started(w.row, worker, expires);
    var second := ExecutionActions(wf, started, worker, env, fuel);
    SoundIsClear(wf, w.base, w.row);
    WalkTwo(w.row, first[0], first[1], 2);
    SaneTransfers(wf, w, started);
    NoneCalled(w.row, first, if cut <= 2 then cut else 2);
    if 2 <= cut {
      ExecutionCallsFresh(wf, w.(row := started), worker, env, fuel, cut - 2);
    }
    CallsFreshConcat(w.row, first, second, cut);
  }

  lemma CleaningCallsFresh(wf: Workflow, w: World, step: Step, cut: nat)
    requires WellNamed(wf) && Sane(wf, w) && step.Cleaning? && step.env.now == w.now && Acts(w, step)
    requires cut <= |Actions(wf, w, step)|
    ensures CallsFresh(w.row, Actions(wf, w, step), cut)
  {
    hide WellNamed, ApplyAll, Sound, FormedWorld, InOrder, HasId, ResumeActions, CallsFresh;
    SoundIsClear(wf, w.base, w.row);
    var r' := w.row.(lock := Unlocked);
    var second := if step.listed && Resumable(w.row.status)
      then ResumeActions(wf, r', step.worker, step.expires, step.env, step.fuel) else [];
    Walk(w.row, BreakLock, [], 0);
    assert [BreakLock] + [] == [BreakLock];
    ApplyNone(r');
    SaneTransfers(wf, w, r');
    NoneCalled(w.row, [BreakLock], if cut == 0 then 0 else 1);
    if 1 <= cut {
      if step.listed && Resumable(w.row.status) {
        ResumeCallsFresh(wf, w.(row := r'), step.worker, step.expires, step.env, step.fuel, cut - 1);
      } else {
        NoneCalled(r', [], 0);
      }
    }
    CallsFreshConcat(w.row, [BreakLock], second, cut);
  }

  lemma CancellingCallsFresh(wf: Workflow, w: World, step: Step, cut: nat)
    requires Sane(wf, w) && step.Cancelling? && Acts(w, step) && cut <= |Actions(wf, w, step)|
    ensures CallsFresh(w.row, Actions(wf, w, step), cut)
  {
    hide ApplyAll, Sound, FormedWorld, InOrder, HasId, RollbackActions, CancelEnd, CallsFresh;
    SoundIsClear(wf, w.base, w.row);
    if Terminal(step.seen) {
      NoneCalled(w.row, [], 0);
    } else {
      var rollback, rest := RollbackActions(w.row, step.errors), CancelEnd(w.row.status, step.worker);
      CancelCalls(w.row.status, step.worker);
      var acquire := Acquire(step.worker, step.expires);
      var locked := Write(w.row, acquire);
      SaneTransfers(wf, w, locked);
      SameRollback(w.row, locked, step.errors);
      Walk(w.row, acquire, [], 0);
      assert [acquire] + [] == [acquire];
      ApplyNone(locked);
      NoneCalled(w.row, [acquire], if cut == 0 then 0 else 1);
      if 1 <= cut {
        SaneRow(wf, w.(row := locked));
        if cut - 1 <= |rollback| {
          RollbackCallsFresh(locked, Millis(w.now), step.errors, cut - 1);
        }
        if |rollback| <= cut - 1 {
          NoneCalled(ApplyAll(locked, rollback), rest, cut - 1 - |rollback|);
        }
        CallsFreshConcat(locked, rollback, rest, cut - 1);
      }
      CallsFreshConcat(w.row, [acquire], rollback + rest, cut);
    }
  }

  lemma SaneRow(wf: Workflow, w: World)
    requires Sane(wf, w)
    ensures FormedRow(w.row) && w.row.tx.None? && InOrder(w.row, Millis(w.now))
  {
    hide Books, Intact;
  }

  lemma CancelCalls(status: Status, worker: string)
    ensures forall a :: a in CancelEnd(status, worker) ==> !a.Call?
  {
  }

  lemma SameRollback(r: Row, r': Row, errors: Compensation -> Option<string>)
    requires r'.history == r.history && r'.compensations == r.compensations
    ensures RollbackActions(r', errors) == RollbackActions(r, errors)
  {
  }

  lemma HandlersCallNothing(r: Row, now: nat, step: Step)
    requires !step.Cancelling?
    ensures forall a :: a in HandlerActions(r, now, step) ==> !a.Call?
  {
    hide HasId;
  }

  /**
   * User code, activity or compensation, is called only while it has no record: at the moment of
   * the call, in whatever state a possible step finds the instance.
   */
  lemma CallsUnrecorded(wf: Workflow, w: World, step: Step, cut: nat)
    requires WellNamed(wf) && Sane(wf, w) && Possible(w, step) && cut <= |Actions(wf, w, step)|
    ensures CallsFresh(w.row, Actions(wf, w, step), cut)
  {
    hide WellNamed, Sane, HasId, ResumeActions, HandlerActions, CallsFresh;
    if !Acts(w, step) {
      NothingDone(wf, w, step);
      NoneCalled(w.row, [], 0);
    } else if step.Resuming? {
      ResumeCallsFresh(wf, w, step.worker, step.expires, step.env, step.fuel, cut);
    } else if step.Cleaning? {
      CleaningCallsFresh(wf, w, step, cut);
    } else if step.Cancelling? {
      CancellingCallsFresh(wf, w, step, cut);
    } else {
      HandlersCallNothing(w.row, w.now, step);
      NoneCalled(w.row, Actions(wf, w, step), cut);
    }
  }

  /**
   * What is recorded is never called again: no step of any continuation of a possible run, in
   * the same iteration, calls user code under an id that has a record.
   */
  lemma NeverCalledAgain(
    wf: Workflow, before: seq<Move>, after: seq<Move>, step: Step, cut: nat, id: string)
    requires WellNamed(wf) && PossibleRun(wf, NEW, before) && PossibleRun(wf, Reached(wf, NEW, before), after)
    requires HasId(Reached(wf, NEW, before).row.history, id)
    requires var w := Reached(wf, Reached(wf, NEW, before), after);
             w.iteration == Reached(wf, NEW, before).iteration && Possible(w, step)
             && cut < |Actions(wf, w, step)| && !Clears(Actions(wf, w, step)[..cut])
    ensures Actions(wf, Reached(wf, Reached(wf, NEW, before), after), step)[cut] != Call(id)
  {
    hide WellNamed, PossibleRun, Reached, Sound, FormedWorld, HasId, ApplyAll, Actions, InOrder, Possible;
    var w0 := Reached(wf, NEW, before);
    var w := Reached(wf, w0, after);
    NewIsSound(wf);
    RunSound(wf, NEW, before);
    RunSound(wf, w0, after);
    SoundIsClear(wf, w0.base, w0.row);
    RunGrows(wf, w0, after);
    NewInOrder();
    RunInOrder(wf, NEW, before);
    RunInOrder(wf, w0, after);
    if Actions(wf, w, step)[cut] == Call(id) {
      CallsUnrecorded(wf, w, step, cut);
      ActionsGrow(w.row, Actions(wf, w, step)[..cut]);
      HasIdStays(w0.row.history, w.row.history, id);
      HasIdStays(w.row.history, After(w.row, Actions(wf, w, step), cut).history, id);
    }
  }
}
