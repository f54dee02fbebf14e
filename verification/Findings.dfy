/**
 * Where the assumptions of the theorems are needed: what the code does without them, shown on
 * the code as it is.
 */
module Findings {
  import opened Prelude
  import opened ActivityIds
  import opened Clock
  import opened Locks
  import opened Tables
  import opened Workflows
  import opened Replay
  import opened Saga
  import opened Machine
  import opened Integrity
  import opened Accounts
  import opened Reachable
  import opened Safety
  import opened Timers

  // ---- A swallowed error of a transactional activity ----

  /** The id of the call after the next one is in no record and in no cache entry either. */
  lemma IdAfterNextIsFree(wf: Workflow, r: Row, o: Outcome)
    requires WellNamed(wf) && OnPath(wf, r)
    requires !Ends(wf(Seen(r))) && !Ends(wf(Seen(r) + [o]))
    ensures var id, id' := IdOf(wf, Seen(r)), IdOf(wf, Seen(r) + [o]);
            id' != id && !HasId(r.history, id') && id' !in CacheOf(r.history)
  {
    hide IsOutcome, KeepsClear, Filter;
    var seen, records := Seen(r), Outcomes(r.history);
    var more := seen + [o];
    var name, n := NameOf(wf(more)), Counter(wf, more, NameOf(wf(more))) + 1;
    assert more[..|seen|] == seen && more[..|more|] == more;
    IdsDiffer(wf, more, |seen|, |more|);
    assert Unreserved(name) by {
      assert wf(more).Sleep? ==> name[0] == 's';
      assert wf(more).WaitEvent? ==> name[0] == 'r';
      assert "compensation"[0] == 'c' && "channel:"[0] == 'c';
    }
    UnreservedIsClaimed(name, n);
    FilterMembers(r.history, IsOutcome);
    forall i | 0 <= i < |r.history| ensures r.history[i].activityId != Render(name, n) {
      var e := r.history[i];
      if IsOutcome(e) {
        var j :| 0 <= j < |records| && records[j] == e;
        EarlierAnswer(wf, records, j, more);
      } else {
        ClearIdsDiffer(e, name, n);
      }
    }
    CacheIsHistory(r.history);
  }

  lemma EarlierAnswer(wf: Workflow, records: seq<Event>, j: nat, more: seq<Outcome>)
    requires IsRun(wf, records) && j < |records| && Outs(records) <= more && !Ends(wf(more))
    ensures records[j].activityId != IdOf(wf, more)
  {
    hide IdOf;
    assert Answers(wf, records, j);
    assert more[..j] == Outs(records)[..j] && more[..|more|] == more;
    IdsDiffer(wf, more, j, |more|);
  }

  /**
   * Why replay needs errors of transactional activities to be passed on.  Take any instance on
   * its path whose next call is such an activity, let it fail, and let the workflow go on with
   * an activity whose outcome is recorded.  The failure is rolled back with its record, the later
   * outcome stays: the history is no longer the beginning of any run of the workflow.
   */
  lemma SwallowedErrorLeavesThePath(wf: Workflow, r: Row, env: Env, message: string)
    requires WellNamed(wf) && OnPath(wf, r)
    requires wf(Seen(r)).Activity? && wf(Seen(r)).transactional
    requires env.invoke(IdOf(wf, Seen(r))) == Err(message)
    requires wf(Seen(r) + [Err(message)]).Activity? && !wf(Seen(r) + [Err(message)]).transactional
    ensures var r' := ApplyAll(r, ExecFrom(wf, r, |Outcomes(r.history)|, env, 2).actions);
            var id' := IdOf(wf, Seen(r) + [Err(message)]);
            && r'.history == r.history + [ActivityEvent(id', env.invoke(id'))]
            && !IsRun(wf, Outcomes(r'.history)) && !HasId(r'.history, IdOf(wf, Seen(r)))
  {
    hide ApplyAll, Apply, IdOf, OnPath, WellNamed, Perform, Performed, HasId, ExecFrom, Exec, IsRun, Outs, Outcomes,
         CacheOf,
         ActivityEvent;
    var seen := Seen(r);
    var id, id' := IdOf(wf, seen), IdOf(wf, seen + [Err(message)]);
    var c, c' := wf(seen), wf(seen + [Err(message)]);
    SwallowedPlan(wf, r, env, message);
    IdAfterNextIsFree(wf, r, Err(message));
    PathIsOpen(wf, r);
    PerformApplied(r, c, id, env);
    PerformApplied(r, c', id', env);
    RolledBack(r, c, id, env);
    ApplyConcat(r, Perform(c, id, env), Perform(c', id', env));
    RecordedPlainly(r, c', id', env);
    EventShape(id', env.invoke(id'));
    WrongRecord(wf, r, ActivityEvent(id', env.invoke(id')));
  }

  lemma EventShape(id: string, o: Outcome)
    ensures var e := ActivityEvent(id, o); e.activityId == id && (e.kind.ActivityCompleted? || e.kind.ActivityFailed?)
  {
  }

  /** Such an execution performs the two activities, and then runs out of its two calls. */
  lemma SwallowedPlan(wf: Workflow, r: Row, env: Env, message: string)
    requires WellNamed(wf) && OnPath(wf, r)
    requires wf(Seen(r)).Activity? && wf(Seen(r)).transactional
    requires env.invoke(IdOf(wf, Seen(r))) == Err(message)
    requires wf(Seen(r) + [Err(message)]).Activity? && !wf(Seen(r) + [Err(message)]).transactional
    ensures var id, id' := IdOf(wf, Seen(r)), IdOf(wf, Seen(r) + [Err(message)]);
            ExecFrom(wf, r, |Outcomes(r.history)|, env, 2).actions ==
              Perform(wf(Seen(r)), id, env) + Perform(wf(Seen(r) + [Err(message)]), id', env)
  {
    hide IdOf, OnPath, WellNamed, Perform, HasId, ExecFrom, Exec, Outcomes, CacheOf;
    var seen := Seen(r);
    var id, o := IdOf(wf, seen), Err(message);
    ExecPerforms(wf, r, env, 2);
    IdAfterNextIsFree(wf, r, o);
    OneCall(wf, seen + [o], CacheOf(r.history)[id := o], env);
  }

  lemma PerformApplied(r: Row, c: Call, id: string, env: Env)
    requires c.Activity? && r.tx.None?
    ensures ApplyAll(r, Perform(c, id, env)) == Performed(r, c, id, env)
  {
    hide ApplyAll, Performed;
    PerformRows(r, c, id, env, 0);
  }

  lemma PathIsOpen(wf: Workflow, r: Row)
    requires OnPath(wf, r)
    ensures r.tx.None?
  {
  }

  lemma RolledBack(r: Row, c: Call, id: string, env: Env)
    requires c.Activity? && c.transactional && env.invoke(id).Err?
    ensures Performed(r, c, id, env) == r
  {
  }

  lemma RecordedPlainly(r: Row, c: Call, id: string, env: Env)
    requires c.Activity? && !c.transactional && !HasId(r.history, id)
    ensures Performed(r, c, id, env).history == r.history + [ActivityEvent(id, env.invoke(id))]
  {
  }

  lemma OneCall(wf: Workflow, seen: seq<Outcome>, cache: map<string, Outcome>, env: Env)
    requires wf(seen).Activity? && IdOf(wf, seen) !in cache
    ensures Exec(wf, seen, cache, env, 1).actions == Perform(wf(seen), IdOf(wf, seen), env)
  {
    hide IdOf, Perform;
    assert Exec(wf, seen + [PerformedOutcome(wf(seen), IdOf(wf, seen), env)],
                cache[IdOf(wf, seen) := PerformedOutcome(wf(seen), IdOf(wf, seen), env)], env, 0).actions == [];
  }

  // ---- What leads off the path ----

  /** A record of an outcome keeps the history on its path exactly if it answers the next call. */
  lemma RecordKeepsPathExactly(wf: Workflow, r: Row, e: Event)
    requires OnPath(wf, r) && IsOutcome(e) && KeepsClear(e) && !HasId(r.history, e.activityId)
    ensures OnPath(wf, r.(history := Appended(r.history, e))) <==>
            !Ends(wf(Seen(r))) && e.activityId == IdOf(wf, Seen(r)) && Fits(wf(Seen(r)), e)
    ensures Outcomes(Appended(r.history, e)) == Outcomes(r.history) + [e]
  {
    hide IdOf, KeepsClear, IsOutcome, IsRun, HasId, Outs, Fits, Filter;
    FilterSnoc(r.history, e, IsOutcome);
    assert Appended(r.history, e) == r.history + [e];
    RunGoesOnExactly(wf, Outcomes(r.history), e);
  }

  /**
   * A found timer keeps the history on its path exactly if it is that of the next call, whatever
   * poll found it.  One found before a recur can be handled when its id is still to come.
   */
  lemma FiringKeepsPathExactly(wf: Workflow, w: World, step: Step)
    requires OnPath(wf, w.row) && step.Firing? && Acts(w, step) && SleepId(step.id) && !HasId(w.row.history, step.id)
    ensures OnPath(wf, Next(wf, w, step, 3).row) <==> !Ends(wf(Seen(w.row))) && step.id == IdOf(wf, Seen(w.row))
  {
    hide IdOf, HasId, Appended, ApplyAll, After, OnPath, SleepId;
    PathIsOpen(wf, w.row);
    SleepIdIsNoOther(step.id);
    WalkThree(w.row, Acquire(step.worker, step.expires), DropTimer(step.id), Append(TimerEvent(step.id)), 3);
    RecordKeepsPathExactly(wf, w.row, TimerEvent(step.id));
    SamePath(wf, w.row.(history := Appended(w.row.history, TimerEvent(step.id))), Next(wf, w, step, 3).row);
  }

  lemma SamePath(wf: Workflow, r: Row, r': Row)
    requires r'.history == r.history && r'.tx == r.tx
    ensures OnPath(wf, r) <==> OnPath(wf, r')
  {
  }

  /**
   * A recur that dies after deleting the history and before deleting the subscriptions leaves a
   * wait that was left over; a delivery then is the first record of the new iteration, and unless
   * the workflow begins with that very receive, the history is off its path.  From the deletion
   * of the subscriptions on nothing is delivered.
   */
  lemma LeftoverWaitLeavesThePath(
    wf: Workflow, r: Row, input: string, worker: string, cut: nat, channel: string, message: nat, text: string)
    requires r.tx.None? && 2 <= cut <= 7
    requires channel in r.subscriptions && r.subscriptions[channel].Some?
    requires ReceiveId(channel, r.subscriptions[channel].value.activityId)
    requires !Ends(wf([])) ==> r.subscriptions[channel].value.activityId != IdOf(wf, [])
    ensures var r' := After(r, RecurActions(input, worker), cut);
            && (Refused(r', channel, message) <==> 4 <= cut)
            && (!Refused(r', channel, message) ==>
                  !IsRun(wf, Outcomes(Appended(r'.history, DeliveryEvent(r', channel, message, text)))))
  {
    hide IdOf, ApplyAll, After, ReceiveId, Filter;
    RecurRows(r, input, worker, cut);
    var r' := After(r, RecurActions(input, worker), cut);
    if cut < 4 {
      var id := r.subscriptions[channel].value.activityId;
      var e := Event(id, ChannelMessageReceived, Json(text));
      ReceiveIsCall(channel, id);
      CallIsOutcome(e);
      assert !HasId([], id) && Appended([], e) == [] + [e];
      FilterSnoc([], e, IsOutcome);
      assert Filter([], IsOutcome) == [] by { FilterMembers([], IsOutcome); }
      WrongStart(wf, e);
    }
  }

  lemma WrongStart(wf: Workflow, e: Event)
    requires !Ends(wf([])) ==> e.activityId != IdOf(wf, [])
    ensures !IsRun(wf, [] + [e])
  {
    hide IdOf;
    var records := [] + [e];
    assert Outs(records)[..0] == [];
    assert !Answers(wf, records, 0);
  }

  /** A record under another id than the next call's. */
  lemma WrongRecord(wf: Workflow, r: Row, e: Event)
    requires WellNamed(wf) && OnPath(wf, r) && !Ends(wf(Seen(r))) && e.activityId != IdOf(wf, Seen(r))
    requires e.kind.ActivityCompleted? || e.kind.ActivityFailed?
    requires exists o :: !Ends(wf(Seen(r) + [o])) && e.activityId == IdOf(wf, Seen(r) + [o])
    ensures !IsRun(wf, Outcomes(r.history + [e])) && !HasId(r.history + [e], IdOf(wf, Seen(r)))
  {
    hide IdOf;
    var o :| !Ends(wf(Seen(r) + [o])) && e.activityId == IdOf(wf, Seen(r) + [o]);
    CallIdOf(wf, Seen(r) + [o]);
    CallIsOutcome(e);
    var records := Outcomes(r.history);
    FilterSnoc(r.history, e, IsOutcome);
    NextIdIsFree(wf, r);
    assert Outs(records + [e])[..|records|] == Outs(records);
    assert !Answers(wf, records + [e], |records|);
  }

  // ---- Activities outside a transaction ----

  /**
   * Without a transaction a completed activity loses its compensation exactly if the worker dies
   * right after recording the outcome: then the entry is missing, and since the outcome is recorded
   * the activity is not run again to register it.  At every other point a death leaves both or
   * neither.
   */
  lemma PlainActivityLosesCompensation(r: Row, c: Call, id: string, env: Env, cut: nat)
    requires c.Activity? && !c.transactional && c.compensated && env.invoke(id).Ok?
    requires r.tx.None? && !HasId(r.history, id) && cut <= |Perform(c, id, env)|
    ensures var r' := After(r, Perform(c, id, env), cut);
            && (HasId(r'.history, id) && r'.compensations == r.compensations <==> cut == 2)
            && (HasId(r'.history, id) <==> 2 <= cut)
            && (3 <= cut ==>
                  r'.compensations ==
                    r.compensations + [Compensation(r.nextCompensation, id, c.name, Millis(env.now))])
  {
    hide ApplyAll, Apply, Write, HasId, After, Perform, Performed;
    PlainCallRows(r, c, id, env, cut);
    PerformedEntry(r, c, id, env);
    EventShape(id, env.invoke(id));
    assert HasId(Appended(r.history, ActivityEvent(id, env.invoke(id))), id);
    OneEntryMore(r.compensations, Compensation(r.nextCompensation, id, c.name, Millis(env.now)));
  }

  lemma OneEntryMore(entries: seq<Compensation>, c: Compensation)
    ensures entries + [c] != entries
  {
    assert |entries + [c]| == |entries| + 1;
  }

  // ---- A rollback that is not the end ----

  /** Results of compensations answer no call. */
  lemma {:induction false} AsideCaches(r: Row, actions: seq<Action>)
    requires r.tx.None?
    requires forall i :: 0 <= i < |actions| ==>
               actions[i].Call? || (actions[i].Append? && !Cacheable(actions[i].event))
    ensures var r' := ApplyAll(r, actions);
            && r'.tx.None? && r'.status == r.status && CacheOf(r'.history) == CacheOf(r.history)
  {
    hide CacheOf, HasId;
    if actions != [] {
      var init, a := actions[..|actions| - 1], actions[|actions| - 1];
      AsideCaches(r, init);
      if a.Append? {
        CacheSnoc(ApplyAll(r, init).history, a.event);
      }
    }
  }

  lemma RollbackCaches(r: Row, errors: Compensation -> Option<string>, cut: nat)
    requires r.tx.None? && cut <= |RollbackActions(r, errors)|
    ensures var r' := After(r, RollbackActions(r, errors), cut);
            r'.status == r.status && CacheOf(r'.history) == CacheOf(r.history)
  {
    hide ApplyAll, CacheOf, PassActions, Lifo, ExecutedIds;
    PassShape(Lifo(r.compensations), ExecutedIds(r.history), errors);
    AsideCaches(r, RollbackActions(r, errors)[..cut]);
  }

  /** At its failure workflow code fails again, or calls the failed activity again. */
  lemma FailsAgain(wf: Workflow, seen: seq<Outcome>, cache: map<string, Outcome>, env: Env, fuel: nat, message: string)
    requires fuel > 0
    requires wf(seen) == Fail(message) || (FailsUnrecorded(wf, seen, message) && IdOf(wf, seen) !in cache)
    ensures var plan := Exec(wf, seen, cache, env, fuel);
            && (wf(seen).Fail? ==> plan == Plan([], Raised(message)))
            && (wf(seen).Activity? ==> Call(IdOf(wf, seen)) in plan.actions && !Passive(plan.actions))
  {
    hide IdOf, ActivityEvent;
    if wf(seen).Activity? {
      var id := IdOf(wf, seen);
      var o := env.invoke(id);
      var rest := Exec(wf, seen + [o], cache[id := o], env, fuel - 1);
      var all := InTransaction(wf(seen), id, env);
      assert all[1] == Call(id);
      assert [] + all + rest.actions == all + rest.actions;
      assert (all + rest.actions)[1] == Call(id);
    }
  }

  /**
   * A failing workflow is rolled back first and marked as failed at the very end.  However much of
   * the rollback has been done, up to every single compensation, the instance has its status still,
   * and its records hand out what they did before; so the next execution comes back to the failure.
   * It goes straight on with the rollback if and only if the failure follows from recorded outcomes.
   * If workflow code failed because a transactional activity did, whose error is not recorded, the
   * next execution calls that activity again; if it succeeds then, the workflow goes on with its
   * earlier activities compensated.
   */
  lemma RollbackSettlesExactly(
    wf: Workflow, r: Row, seen: seq<Outcome>, env: Env, message: string, worker: string, cut: nat, again: Env, fuel: nat)
    requires r.tx.None? && Fed(wf, CacheOf(r.history), seen) && |seen| < fuel
    requires wf(seen) == Fail(message) ||
             (FailsUnrecorded(wf, seen, message) && IdOf(wf, seen) !in CacheOf(r.history))
    requires cut <= |RollbackActions(r, env.compensate)|
    ensures cut <= |Conclusion(r, Raised(message), worker, env)|
    ensures var r' := After(r, Conclusion(r, Raised(message), worker, env), cut);
            var plan := Exec(wf, [], CacheOf(r'.history), again, fuel);
            && r'.status == r.status && Fed(wf, CacheOf(r'.history), seen)
            && (Passive(plan.actions) && plan.end == Raised(message) <==> wf(seen).Fail?)
            && (wf(seen).Activity? ==> Call(IdOf(wf, seen)) in plan.actions)
  {
    hide ApplyAll, After, RollbackActions, IdOf, Exec, CacheOf, Fed, SeenBy, Passive, FailsUnrecorded;
    var first := RollbackActions(r, env.compensate);
    var second := [Append(FailureEvent(message)), SetStatus(Failed), ReleaseBy(worker)];
    CutConcat(r, first, second, cut);
    RollbackCaches(r, env.compensate, cut);
    var cache := CacheOf(r.history);
    var plan, rest := Exec(wf, [], cache, again, fuel), Exec(wf, seen, cache, again, fuel - |seen|);
    assert seen[..0] == [];
    ExecAlong(wf, cache, seen, 0, again, fuel);
    FailsAgain(wf, seen, cache, again, fuel - |seen|, message);
    FailsByActivity(wf, seen, message);
    NothingIsPassive();
    PassiveBoth(plan.actions, rest.actions);
    assert forall a :: a in rest.actions ==> a in plan.actions;
  }

  lemma FailsByActivity(wf: Workflow, seen: seq<Outcome>, message: string)
    ensures FailsUnrecorded(wf, seen, message) ==> wf(seen).Activity?
  {
  }

  lemma NothingIsPassive()
    ensures Passive([])
  {
  }
}
