/**
 * What every run keeps, whatever it does and in whatever order its records come: unique ids,
 * records that keep clear of calls, and the meaning of "completed".
 */
module Integrity {
  import opened Prelude
  import opened ActivityIds
  import opened Clock
  import opened Locks
  import opened Tables
  import opened Workflows
  import opened Replay
  import opened Saga
  import opened Machine

  // ---- Unique ids ----

  lemma {:induction false} WritesUnique(r: Row, actions: seq<Action>)
    requires UniqueIds(r.history)
    ensures UniqueIds(WriteAll(r, actions).history)
  {
    hide UniqueIds;
    if actions != [] {
      WritesUnique(r, actions[..|actions| - 1]);
      WriteUnique(WriteAll(r, actions[..|actions| - 1]), actions[|actions| - 1]);
    }
  }

  lemma WriteUnique(r: Row, a: Action)
    requires UniqueIds(r.history)
    ensures UniqueIds(Write(r, a).history)
  {
  }

  lemma {:induction false} ActionsUnique(r: Row, actions: seq<Action>)
    requires UniqueIds(r.history)
    ensures UniqueIds(ApplyAll(r, actions).history)
  {
    hide UniqueIds, Write, WriteAll;
    if actions != [] {
      var before, a := ApplyAll(r, actions[..|actions| - 1]), actions[|actions| - 1];
      ActionsUnique(r, actions[..|actions| - 1]);
      WriteUnique(before, a);
      if before.tx.Some? {
        WritesUnique(before.(tx := None), before.tx.value);
      }
    }
  }

  /** Any step at all, cut anywhere: ids stay unique, and no transaction stays open. */
  lemma StepUnique(wf: Workflow, w: World, step: Step, cut: nat)
    requires w.row.tx.None? && UniqueIds(w.row.history)
    ensures Next(wf, w, step, cut).row.tx.None? && UniqueIds(Next(wf, w, step, cut).row.history)
  {
    hide UniqueIds, Actions, ApplyAll;
    var all := Actions(wf, w, step);
    ActionsUnique(w.row, all[..Clip(cut, all)]);
  }

  // ---- Histories only grow, until they are deleted ----

  lemma {:induction false} WritesGrow(r: Row, actions: seq<Action>)
    requires ClearHistory !in actions
    ensures r.history <= WriteAll(r, actions).history && WriteAll(r, actions).tx == r.tx
  {
    hide Appended;
    if actions != [] {
      WritesGrow(r, actions[..|actions| - 1]);
      WriteGrows(WriteAll(r, actions[..|actions| - 1]), actions[|actions| - 1]);
    }
  }

  lemma WriteGrows(r: Row, a: Action)
    requires !a.ClearHistory?
    ensures r.history <= Write(r, a).history && Write(r, a).tx == r.tx
  {
  }

  lemma ApplyGrows(r: Row, a: Action)
    requires !a.ClearHistory? && (r.tx.Some? ==> ClearHistory !in r.tx.value)
    ensures r.history <= Apply(r, a).history
    ensures Apply(r, a).tx.Some? ==> ClearHistory !in Apply(r, a).tx.value
  {
    WriteGrows(r, a);
    if a.Commit? && r.tx.Some? {
      WritesGrow(r.(tx := None), r.tx.value);
    }
  }

  lemma {:induction false} ActionsGrow(r: Row, actions: seq<Action>)
    requires ClearHistory !in actions && (r.tx.Some? ==> ClearHistory !in r.tx.value)
    ensures r.history <= ApplyAll(r, actions).history
    ensures ApplyAll(r, actions).tx.Some? ==> ClearHistory !in ApplyAll(r, actions).tx.value
  {
    hide Apply;
    if actions != [] {
      var init := actions[..|actions| - 1];
      ActionsGrow(r, init);
      ApplyGrows(ApplyAll(r, init), actions[|actions| - 1]);
    }
  }

  /** Within an iteration a step only adds to the history, at its end. */
  lemma StepGrows(wf: Workflow, w: World, step: Step, cut: nat)
    requires w.row.tx.None?
    ensures var w' := Next(wf, w, step, cut);
            && w.iteration <= w'.iteration && w.now <= w'.now
            && (w'.iteration == w.iteration ==> w.row.history <= w'.row.history)
            && w'.row.tx.None?
  {
    hide ApplyAll, Actions;
    var all := Actions(wf, w, step);
    var done := all[..Clip(cut, all)];
    if !step.Polling? && !step.Passing? && !Clears(done) {
      ActionsGrow(w.row, done);
    }
  }

  lemma {:induction false} RunGrows(wf: Workflow, w: World, moves: seq<Move>)
    requires w.row.tx.None?
    ensures var w' := Reached(wf, w, moves);
            && w.iteration <= w'.iteration && w.now <= w'.now
            && (w'.iteration == w.iteration ==> w.row.history <= w'.row.history)
            && w'.row.tx.None?
    decreases |moves|
  {
    hide Next;
    if moves != [] {
      StepGrows(wf, w, moves[0].step, moves[0].cut);
      RunGrows(wf, Next(wf, w, moves[0].step, moves[0].cut), moves[1..]);
    }
  }

  lemma {:induction false} RunUnique(wf: Workflow, w: World, moves: seq<Move>)
    requires w.row.tx.None? && UniqueIds(w.row.history)
    ensures Reached(wf, w, moves).row.tx.None? && UniqueIds(Reached(wf, w, moves).row.history)
    decreases |moves|
  {
    hide Next, UniqueIds;
    if moves != [] {
      StepUnique(wf, w, moves[0].step, moves[0].cut);
      RunUnique(wf, Next(wf, w, moves[0].step, moves[0].cut), moves[1..]);
    }
  }

  // ---- Records that keep clear of calls ----

  predicate ClearAppends(actions: seq<Action>) {
    forall a :: a in actions && a.Append? ==> KeepsClear(a.event)
  }

  predicate AllClear(history: seq<Event>) {
    forall i :: 0 <= i < |history| ==> KeepsClear(history[i])
  }

  /** Unique ids, and records that answer no call under ids no call has. */
  ghost predicate Intact(r: Row) {
    UniqueIds(r.history) && AllClear(r.history) && (r.tx.Some? ==> ClearAppends(r.tx.value))
  }

  lemma WriteClear(r: Row, a: Action)
    requires AllClear(r.history) && (a.Append? ==> KeepsClear(a.event))
    ensures AllClear(Write(r, a).history)
  {
  }

  lemma {:induction false} WritesClear(r: Row, actions: seq<Action>)
    requires AllClear(r.history) && ClearAppends(actions)
    ensures AllClear(WriteAll(r, actions).history) && WriteAll(r, actions).tx == r.tx
  {
    hide Write, AllClear, KeepsClear;
    if actions != [] {
      WritesClear(r, actions[..|actions| - 1]);
      WriteClear(WriteAll(r, actions[..|actions| - 1]), actions[|actions| - 1]);
      WriteTx(WriteAll(r, actions[..|actions| - 1]), actions[|actions| - 1]);
    }
  }

  lemma WriteTx(r: Row, a: Action)
    ensures Write(r, a).tx == r.tx
  {
  }

  lemma ApplyClear(r: Row, a: Action)
    requires AllClear(r.history) && (r.tx.Some? ==> ClearAppends(r.tx.value))
    requires a.Append? ==> KeepsClear(a.event)
    ensures var r' := Apply(r, a); AllClear(r'.history) && (r'.tx.Some? ==> ClearAppends(r'.tx.value))
  {
    hide Write, WriteAll, AllClear, KeepsClear;
    WriteClear(r, a);
    WriteTx(r, a);
    if r.tx.Some? {
      WritesClear(r.(tx := None), r.tx.value);
    }
  }

  lemma {:induction false} ActionsClear(r: Row, actions: seq<Action>)
    requires AllClear(r.history) && (r.tx.Some? ==> ClearAppends(r.tx.value)) && ClearAppends(actions)
    ensures var r' := ApplyAll(r, actions); AllClear(r'.history) && (r'.tx.Some? ==> ClearAppends(r'.tx.value))
  {
    hide Apply, AllClear, KeepsClear;
    if actions != [] {
      ActionsClear(r, actions[..|actions| - 1]);
      ApplyClear(ApplyAll(r, actions[..|actions| - 1]), actions[|actions| - 1]);
    }
  }

  lemma TurnClear(wf: Workflow, seen: seq<Outcome>, cache: map<string, Outcome>, env: Env)
    requires !Ends(wf(seen))
    ensures ClearAppends(TurnOf(wf, seen, cache, env).actions)
  {
    hide IdOf;
  }

  lemma {:induction false} ExecClear(
    wf: Workflow, seen: seq<Outcome>, cache: map<string, Outcome>, env: Env, fuel: nat)
    ensures ClearAppends(Exec(wf, seen, cache, env, fuel).actions)
    decreases fuel
  {
    hide TurnOf, Exec, IdOf, Suspends, KeepsClear;
    ExecStep(wf, seen, cache, env, fuel);
    if fuel > 0 && !Ends(wf(seen)) {
      var turn := TurnOf(wf, seen, cache, env);
      TurnClear(wf, seen, cache, env);
      if turn.outcome.Some? {
        ExecClear(wf, seen + [turn.outcome.value], turn.cache, env, fuel - 1);
      }
    }
  }

  lemma RollbackClear(r: Row, errors: Compensation -> Option<string>)
    ensures ClearAppends(RollbackActions(r, errors))
  {
    PassShape(Lifo(r.compensations), ExecutedIds(r.history), errors);
  }

  lemma ConclusionClear(r: Row, end: End, worker: string, env: Env)
    ensures ClearAppends(Conclusion(r, end, worker, env))
  {
    hide RollbackActions;
    RollbackClear(r, env.compensate);
  }

  lemma ResumeClear(wf: Workflow, r: Row, worker: string, expires: nat, env: Env, fuel: nat)
    ensures ClearAppends(ResumeActions(wf, r, worker, expires, env, fuel))
  {
    hide Exec, Conclusion, ApplyAll, KeepsClear;
    var started := Started(r, worker, expires);
    var plan := Exec(wf, [], CacheOf(started.history), env, fuel);
    ExecClear(wf, [], CacheOf(started.history), env, fuel);
    ConclusionClear(ApplyAll(started, plan.actions), plan.end, worker, env);
  }

  lemma StepClear(wf: Workflow, w: World, step: Step)
    ensures ClearAppends(Actions(wf, w, step))
  {
    hide ResumeActions, RollbackActions, HasId;
    if step.Resuming? {
      ResumeClear(wf, w.row, step.worker, step.expires, step.env, step.fuel);
    } else if step.Cleaning? {
      ResumeClear(wf, w.row.(lock := Unlocked), step.worker, step.expires, step.env, step.fuel);
    } else if step.Cancelling? {
      RollbackClear(w.row, step.errors);
    }
  }

  /** Any step at all, cut anywhere, leaves an intact row intact. */
  lemma StepIntact(wf: Workflow, w: World, step: Step, cut: nat)
    requires w.row.tx.None? && Intact(w.row)
    ensures Next(wf, w, step, cut).row.tx.None? && Intact(Next(wf, w, step, cut).row)
  {
    hide UniqueIds, AllClear, Actions, ApplyAll;
    var all := Actions(wf, w, step);
    var done := all[..Clip(cut, all)];
    StepClear(wf, w, step);
    ActionsUnique(w.row, done);
    assert ClearAppends(done) by { SomeClear(all, Clip(cut, all)); }
    ActionsClear(w.row, done);
  }

  lemma SomeClear(actions: seq<Action>, k: nat)
    requires ClearAppends(actions) && k <= |actions|
    ensures ClearAppends(actions[..k])
  {
  }

  lemma {:induction false} RunIntact(wf: Workflow, w: World, moves: seq<Move>)
    requires w.row.tx.None? && Intact(w.row)
    ensures Reached(wf, w, moves).row.tx.None? && Intact(Reached(wf, w, moves).row)
    decreases |moves|
  {
    hide Next, Intact;
    if moves != [] {
      StepIntact(wf, w, moves[0].step, moves[0].cut);
      RunIntact(wf, Next(wf, w, moves[0].step, moves[0].cut), moves[1..]);
    }
  }

  // ---- A call without a cache entry has no record ----

  /** Every record that can answer a call has an entry. */
  ghost predicate Covers(cache: map<string, Outcome>, history: seq<Event>) {
    forall i :: 0 <= i < |history| && Cacheable(history[i]) ==> history[i].activityId in cache
  }

  lemma UncachedIsUnrecorded(wf: Workflow, r: Row, cache: map<string, Outcome>, seen: seq<Outcome>)
    requires WellNamed(wf) && AllClear(r.history) && Covers(cache, r.history)
    requires !Ends(wf(seen)) && IdOf(wf, seen) !in cache
    ensures !HasId(r.history, IdOf(wf, seen))
  {
    hide KeepsClear, Render;
    var name, n := NameOf(wf(seen)), Counter(wf, seen, NameOf(wf(seen))) + 1;
    CallIsUnreserved(wf, seen);
    if i :| 0 <= i < |r.history| && r.history[i].activityId == Render(name, n) {
      assert KeepsClear(r.history[i]);
      ClearIdsDiffer(r.history[i], name, n);
    }
  }

  /** The names under which calls take their ids. */
  lemma CallIsUnreserved(wf: Workflow, seen: seq<Outcome>)
    requires WellNamed(wf) && !Ends(wf(seen))
    ensures Unreserved(NameOf(wf(seen)))
  {
    var name := NameOf(wf(seen));
    assert wf(seen).Sleep? ==> name[0] == 's';
    assert wf(seen).WaitEvent? ==> name[0] == 'r';
    assert "compensation"[0] == 'c' && "channel:"[0] == 'c';
  }

  lemma CacheCovers(history: seq<Event>)
    requires UniqueIds(history)
    ensures Covers(CacheOf(history), history)
  {
    CacheIsHistory(history);
  }

  /** A longer history has a larger cache. */
  lemma {:induction false} CacheGrows(history: seq<Event>, history': seq<Event>)
    requires history <= history' && UniqueIds(history')
    ensures Extends(CacheOf(history), CacheOf(history'))
  {
    if history != history' {
      var init, e := history'[..|history'| - 1], history'[|history'| - 1];
      CacheGrows(history, init);
      CacheIsHistory(init);
      assert history' == init + [e];
      CacheSnoc(init, e);
    }
  }

  // ---- What "completed" means ----

  /** A completed instance has a value with which its workflow returns, fed from its own records. */
  ghost predicate Claim(wf: Workflow, r: Row) {
    r.status.Completed? ==> exists seen :: Fed(wf, CacheOf(r.history), seen) && wf(seen) == Return(r.output)
  }

  /** The row of a call that was performed and recorded. */
  lemma RecordedTurn(wf: Workflow, r: Row, seen: seq<Outcome>, env: Env)
    requires WellNamed(wf) && Intact(r) && r.tx.None? && !Ends(wf(seen)) && IdOf(wf, seen) !in CacheOf(r.history)
    requires !Suspends(wf(seen), IdOf(wf, seen), env)
    ensures var c, id := wf(seen), IdOf(wf, seen);
            var o, r' := PerformedOutcome(c, id, env), ApplyAll(r, TurnOf(wf, seen, CacheOf(r.history), env).actions);
            && r'.tx.None? && Intact(r')
            && (if Unrecorded(c, o) then r'.history == r.history
                else r'.history == r.history + [ActivityEvent(id, o)] && CacheOf(r'.history) == CacheOf(r.history)[id := o])
  {
    hide ApplyAll, IdOf, Perform, CacheOf, WellNamed, AllClear;
    var c, id := wf(seen), IdOf(wf, seen);
    var o := PerformedOutcome(c, id, env);
    var all := TurnOf(wf, seen, CacheOf(r.history), env).actions;
    TurnClear(wf, seen, CacheOf(r.history), env);
    ActionsUnique(r, all);
    ActionsClear(r, all);
    CacheCovers(r.history);
    UncachedIsUnrecorded(wf, r, CacheOf(r.history), seen);
    PreparedRow(r, c);
    var prepared := ApplyAll(r, Preparation(c));
    ApplyConcat(r, Preparation(c), Perform(c, id, env));
    PerformRows(prepared, c, id, env, 0);
    PerformedHistory(prepared, c, id, env);
    CacheSnoc(r.history, ActivityEvent(id, o));
  }

  lemma PreparedRow(r: Row, c: Call)
    requires r.tx.None?
    ensures var r' := ApplyAll(r, Preparation(c)); r' == r.(subscriptions := r'.subscriptions)
  {
    ApplyNone(r);
    if c.WaitEvent? {
      ApplyPair(r, Subscribe(c.channel), Subscribe(c.channel));
    }
  }

  lemma PerformedHistory(r: Row, c: Call, id: string, env: Env)
    requires (c.Activity? || (c.WaitEvent? && env.pending(id).Some?)) && !HasId(r.history, id) && r.tx.None?
    ensures var r', o := Performed(r, c, id, env), PerformedOutcome(c, id, env);
            r'.tx.None? && r'.history == if Unrecorded(c, o) then r.history else r.history + [ActivityEvent(id, o)]
  {
    EventIds(id, PerformedOutcome(c, id, env));
  }

  lemma EventIds(id: string, o: Outcome)
    ensures ActivityEvent(id, o).activityId == id && Cacheable(ActivityEvent(id, o)) && OutcomeOf(ActivityEvent(id, o)) == o
  {
  }

  /** A turn that performs nothing records nothing. */
  lemma QuietTurn(wf: Workflow, r: Row, seen: seq<Outcome>, cache: map<string, Outcome>, env: Env)
    requires r.tx.None? && !Ends(wf(seen))
    requires IdOf(wf, seen) in cache || Suspends(wf(seen), IdOf(wf, seen), env)
    ensures var r' := ApplyAll(r, TurnOf(wf, seen, cache, env).actions); r' == r.(subscriptions := r'.subscriptions)
  {
    hide ApplyAll, IdOf;
    PreparedRow(r, wf(seen));
    if IdOf(wf, seen) in cache {
      var o := CachedOutcome(wf(seen), cache[IdOf(wf, seen)]);
      SeeIsSilent(ApplyAll(r, Preparation(wf(seen))), IdOf(wf, seen), o);
      ApplySnoc(r, Preparation(wf(seen)), See(IdOf(wf, seen), o));
    }
  }

  // ---- What an execution has seen, and what its records say ----

  /** One turn shows its outcome, and rolls a transaction back exactly for an error it does not record. */
  lemma TurnSeen(wf: Workflow, seen: seq<Outcome>, cache: map<string, Outcome>, env: Env)
    requires !Ends(wf(seen))
    ensures var turn, id := TurnOf(wf, seen, cache, env), IdOf(wf, seen);
            && SeenBy(turn.actions) == (if turn.outcome.Some? then [turn.outcome.value] else [])
            && (Rollback in turn.actions <==>
                  id !in cache && !Suspends(wf(seen), id, env) && Unrecorded(wf(seen), PerformedOutcome(wf(seen), id, env)))
  {
    hide IdOf, SeenBy, ActivityEvent;
    var c, id := wf(seen), IdOf(wf, seen);
    SeenByNothing(Preparation(c));
    if id in cache {
      PreparedSeen(c, id, CachedOutcome(c, cache[id]));
    } else if !Suspends(c, id, env) {
      var o, all := PerformedOutcome(c, id, env), Perform(c, id, env);
      PerformShape(c, id, env);
      SeenAtTheEnd(all, o, 0);
      SeenByConcat(Preparation(c), all);
    }
  }

  /** Where an execution ends is where workflow code ends with what it has seen. */
  lemma {:induction false} ExecEnds(wf: Workflow, seen: seq<Outcome>, cache: map<string, Outcome>, env: Env, fuel: nat)
    ensures var plan := Exec(wf, seen, cache, env, fuel);
            plan.end.Returned? ==> wf(seen + SeenBy(plan.actions)) == Return(plan.end.value)
    decreases fuel
  {
    hide Exec, TurnOf, IdOf, Suspends, SeenBy;
    ExecStep(wf, seen, cache, env, fuel);
    SeenByNothing([]);
    assert seen + [] == seen;
    if fuel > 0 && !Ends(wf(seen)) {
      var turn := TurnOf(wf, seen, cache, env);
      TurnSeen(wf, seen, cache, env);
      if turn.outcome.Some? {
        var o := turn.outcome.value;
        var rest := Exec(wf, seen + [o], turn.cache, env, fuel - 1);
        SeenByConcat(turn.actions, rest.actions);
        assert seen + ([o] + SeenBy(rest.actions)) == (seen + [o]) + SeenBy(rest.actions);
        ExecEnds(wf, seen + [o], turn.cache, env, fuel - 1);
      }
    }
  }

  /** One turn keeps the execution fed, unless it rolls a transaction back. */
  lemma TurnFeeds(wf: Workflow, r: Row, seen: seq<Outcome>, env: Env)
    requires WellNamed(wf) && Intact(r) && r.tx.None? && Fed(wf, CacheOf(r.history), seen) && !Ends(wf(seen))
    requires TurnOf(wf, seen, CacheOf(r.history), env).outcome.Some?
    requires Rollback !in TurnOf(wf, seen, CacheOf(r.history), env).actions
    ensures var turn := TurnOf(wf, seen, CacheOf(r.history), env);
            var next, o := ApplyAll(r, turn.actions), turn.outcome.value;
            && Intact(next) && next.tx.None? && turn.cache == CacheOf(next.history)
            && Fed(wf, CacheOf(next.history), seen + [o])
  {
    hide ApplyAll, IdOf, CacheOf, WellNamed, Fed, Perform, SeenBy;
    var cache, id := CacheOf(r.history), IdOf(wf, seen);
    TurnSeen(wf, seen, cache, env);
    if id in cache {
      QuietTurn(wf, r, seen, cache, env);
      FedSnoc(wf, cache, seen, CachedOutcome(wf(seen), cache[id]));
    } else {
      RecordedTurn(wf, r, seen, env);
      var o := PerformedOutcome(wf(seen), id, env);
      FedExtends(wf, cache, cache[id := o], seen);
      FedSnoc(wf, cache[id := o], seen, o);
    }
  }

  /** A turn that suspends leaves the records alone. */
  lemma TurnSuspends(wf: Workflow, r: Row, seen: seq<Outcome>, env: Env)
    requires r.tx.None? && !Ends(wf(seen)) && TurnOf(wf, seen, CacheOf(r.history), env).outcome.None?
    ensures ApplyAll(r, TurnOf(wf, seen, CacheOf(r.history), env).actions).history == r.history
    ensures Rollback !in TurnOf(wf, seen, CacheOf(r.history), env).actions
  {
    hide ApplyAll, IdOf, CacheOf, SeenBy;
    TurnSeen(wf, seen, CacheOf(r.history), env);
    QuietTurn(wf, r, seen, CacheOf(r.history), env);
  }

  /** A turn records nothing but its own call. */
  lemma TurnAvoids(wf: Workflow, r: Row, seen: seq<Outcome>, cache: map<string, Outcome>, env: Env, id: string)
    requires r.tx.None? && !Ends(wf(seen)) && IdOf(wf, seen) != id && !HasId(r.history, id)
    ensures var r' := ApplyAll(r, TurnOf(wf, seen, cache, env).actions); r'.tx.None? && !HasId(r'.history, id)
  {
    hide ApplyAll, IdOf, HasId, Perform;
    var c, next := wf(seen), IdOf(wf, seen);
    if next in cache || Suspends(c, next, env) {
      QuietTurn(wf, r, seen, cache, env);
    } else {
      PreparedRow(r, c);
      var prepared := ApplyAll(r, Preparation(c));
      ApplyConcat(r, Preparation(c), Perform(c, next, env));
      PerformRows(prepared, c, next, env, 0);
      PerformedAvoids(prepared, c, next, env, id);
    }
  }

  lemma PerformedAvoids(r: Row, c: Call, next: string, env: Env, id: string)
    requires (c.Activity? || (c.WaitEvent? && env.pending(next).Some?)) && r.tx.None?
    requires next != id && !HasId(r.history, id)
    ensures var r' := Performed(r, c, next, env); r'.tx.None? && !HasId(r'.history, id)
  {
    hide HasId;
    var e := ActivityEvent(next, PerformedOutcome(c, next, env));
    EventIds(next, PerformedOutcome(c, next, env));
    AppendedIds(r.history, e, id);
  }

  /** What a call has not recorded, no later call of the execution records under its id. */
  lemma {:induction false} ExecAvoids(
    wf: Workflow, r: Row, seen: seq<Outcome>, cache: map<string, Outcome>, env: Env, fuel: nat, j: nat)
    requires r.tx.None? && j < |seen| && !Ends(wf(seen[..j])) && !HasId(r.history, IdOf(wf, seen[..j]))
    ensures !HasId(ApplyAll(r, Exec(wf, seen, cache, env, fuel).actions).history, IdOf(wf, seen[..j]))
    decreases fuel
  {
    hide ApplyAll, Exec, TurnOf, IdOf, Suspends, HasId;
    var id := IdOf(wf, seen[..j]);
    ExecStep(wf, seen, cache, env, fuel);
    ApplyNone(r);
    if fuel > 0 && !Ends(wf(seen)) {
      var turn := TurnOf(wf, seen, cache, env);
      var next := ApplyAll(r, turn.actions);
      assert seen[..|seen|] == seen;
      IdsDiffer(wf, seen, j, |seen|);
      TurnAvoids(wf, r, seen, cache, env, id);
      if turn.outcome.Some? {
        var more := seen + [turn.outcome.value];
        ApplyConcat(r, turn.actions, Exec(wf, more, turn.cache, env, fuel - 1).actions);
        assert more[..j] == seen[..j];
        ExecAvoids(wf, next, more, turn.cache, env, fuel - 1, j);
      }
    }
  }

  lemma {:induction false} CachedIsRecorded(history: seq<Event>, id: string)
    requires id in CacheOf(history)
    ensures HasId(history, id)
  {
    hide HasId;
    var init, e := history[..|history| - 1], history[|history| - 1];
    assert history == init + [e];
    if id in CacheOf(init) {
      CachedIsRecorded(init, id);
      HasIdStays(init, history, id);
    } else {
      LastIsThere(history);
    }
  }

  lemma LastIsThere(history: seq<Event>)
    requires history != []
    ensures HasId(history, history[|history| - 1].activityId)
  {
  }

  lemma UnrecordedIsUnfed(wf: Workflow, history: seq<Event>, seen: seq<Outcome>, j: nat)
    requires j < |seen| && !Ends(wf(seen[..j])) && !HasId(history, IdOf(wf, seen[..j]))
    ensures !Fed(wf, CacheOf(history), seen)
  {
    hide IdOf, HasId, CacheOf;
    if Fed(wf, CacheOf(history), seen) {
      assert FedAt(wf, CacheOf(history), seen, j);
      CachedIsRecorded(history, IdOf(wf, seen[..j]));
    }
  }

  /** A rolled-back call is in no record when the execution is through. */
  lemma RolledBackIsUnfed(wf: Workflow, r: Row, seen: seq<Outcome>, env: Env, fuel: nat)
    requires WellNamed(wf) && Intact(r) && r.tx.None? && !Ends(wf(seen)) && fuel > 0
    requires Rollback in TurnOf(wf, seen, CacheOf(r.history), env).actions
    ensures var plan := Exec(wf, seen, CacheOf(r.history), env, fuel);
            !Fed(wf, CacheOf(ApplyAll(r, plan.actions).history), seen + SeenBy(plan.actions))
  {
    hide ApplyAll, Exec, IdOf, CacheOf, WellNamed, Intact, Fed, Suspends, HasId, SeenBy, TurnOf;
    var cache, id := CacheOf(r.history), IdOf(wf, seen);
    var turn, plan := TurnOf(wf, seen, cache, env), Exec(wf, seen, cache, env, fuel);
    ExecStep(wf, seen, cache, env, fuel);
    TurnSeen(wf, seen, cache, env);
    RolledBackTurn(wf, r, seen, env);
    var more := seen + [turn.outcome.value];
    var rest := Exec(wf, more, turn.cache, env, fuel - 1);
    ApplyConcat(r, turn.actions, rest.actions);
    SeenByConcat(turn.actions, rest.actions);
    assert more[..|seen|] == seen;
    ExecAvoids(wf, ApplyAll(r, turn.actions), more, turn.cache, env, fuel - 1, |seen|);
    var all := seen + SeenBy(plan.actions);
    assert all[..|seen|] == seen;
    UnrecordedIsUnfed(wf, ApplyAll(r, plan.actions).history, all, |seen|);
  }

  lemma RolledBackTurn(wf: Workflow, r: Row, seen: seq<Outcome>, env: Env)
    requires WellNamed(wf) && Intact(r) && r.tx.None? && !Ends(wf(seen))
    requires Rollback in TurnOf(wf, seen, CacheOf(r.history), env).actions
    ensures var turn := TurnOf(wf, seen, CacheOf(r.history), env);
            var next := ApplyAll(r, turn.actions);
            turn.outcome.Some? && next.tx.None? && !HasId(next.history, IdOf(wf, seen))
  {
    hide ApplyAll, IdOf, CacheOf, WellNamed, HasId, SeenBy, Perform, AllClear;
    var cache := CacheOf(r.history);
    TurnSeen(wf, seen, cache, env);
    CacheCovers(r.history);
    UncachedIsUnrecorded(wf, r, cache, seen);
    RecordedTurn(wf, r, seen, env);
  }

  /**
   * What workflow code has seen is what its records answer with, exactly if the execution rolled
   * no transaction back.  Take any execution, from any point the records feed it to, however it
   * ends: its outcomes are those a replay of its records hands out, if and only if it has not
   * been through the error branch of a transaction.
   */
  lemma {:induction false} ExecFeedsExactly(wf: Workflow, r: Row, seen: seq<Outcome>, env: Env, fuel: nat)
    requires WellNamed(wf) && Intact(r) && r.tx.None? && Fed(wf, CacheOf(r.history), seen)
    ensures var plan := Exec(wf, seen, CacheOf(r.history), env, fuel);
            Fed(wf, CacheOf(ApplyAll(r, plan.actions).history), seen + SeenBy(plan.actions)) <==> Rollback !in plan.actions
    decreases fuel
  {
    hide ApplyAll, Exec, TurnOf, IdOf, CacheOf, WellNamed, Intact, Fed, Suspends, SeenBy;
    var cache := CacheOf(r.history);
    ExecStep(wf, seen, cache, env, fuel);
    ApplyNone(r);
    SeenByNothing([]);
    assert seen + [] == seen;
    if fuel > 0 && !Ends(wf(seen)) {
      var turn := TurnOf(wf, seen, cache, env);
      TurnSeen(wf, seen, cache, env);
      if turn.outcome.None? {
        TurnSuspends(wf, r, seen, env);
      } else if Rollback in turn.actions {
        RolledBackIsUnfed(wf, r, seen, env, fuel);
      } else {
        var o, next := turn.outcome.value, ApplyAll(r, turn.actions);
        var rest := Exec(wf, seen + [o], turn.cache, env, fuel - 1);
        ApplyConcat(r, turn.actions, rest.actions);
        SeenByConcat(turn.actions, rest.actions);
        assert seen + ([o] + SeenBy(rest.actions)) == (seen + [o]) + SeenBy(rest.actions);
        TurnFeeds(wf, r, seen, env);
        ExecFeedsExactly(wf, next, seen + [o], env, fuel - 1);
      }
    }
  }

  /** The execution over these records, if it returns, has rolled no transaction back. */
  ghost predicate Straight(wf: Workflow, r: Row, env: Env, fuel: nat) {
    var plan := Exec(wf, [], CacheOf(r.history), env, fuel);
    plan.end.Returned? ==> Rollback !in plan.actions
  }

  /** An execution that has rolled nothing back returns what its records make workflow code return. */
  lemma ExecFeeds(wf: Workflow, r: Row, env: Env, fuel: nat)
    requires WellNamed(wf) && Intact(r) && r.tx.None? && Straight(wf, r, env, fuel)
    ensures var plan := Exec(wf, [], CacheOf(r.history), env, fuel);
            plan.end.Returned? ==>
              exists seen :: Fed(wf, CacheOf(ApplyAll(r, plan.actions).history), seen) && wf(seen) == Return(plan.end.value)
  {
    hide ApplyAll, Exec, CacheOf, WellNamed, Intact, Fed, SeenBy;
    var plan := Exec(wf, [], CacheOf(r.history), env, fuel);
    NothingFed(wf, CacheOf(r.history));
    ExecFeedsExactly(wf, r, [], env, fuel);
    ExecEnds(wf, [], CacheOf(r.history), env, fuel);
    assert Fed(wf, CacheOf(ApplyAll(r, plan.actions).history), [] + SeenBy(plan.actions)) || !plan.end.Returned?;
  }

  /** Workflow code that passes such errors on never returns after a rollback. */
  lemma {:induction false} PropagatingNeverReturns(
    wf: Workflow, seen: seq<Outcome>, cache: map<string, Outcome>, env: Env, fuel: nat)
    requires Propagates(wf)
    ensures var plan := Exec(wf, seen, cache, env, fuel); Rollback in plan.actions ==> !plan.end.Returned?
    decreases fuel
  {
    hide Exec, TurnOf, IdOf, Suspends, SeenBy, Propagates, PerformedOutcome;
    ExecStep(wf, seen, cache, env, fuel);
    if fuel > 0 && !Ends(wf(seen)) {
      var turn := TurnOf(wf, seen, cache, env);
      TurnSeen(wf, seen, cache, env);
      if turn.outcome.Some? {
        if Rollback in turn.actions {
          TurnOutcome(wf, seen, cache, env);
          ErrorPropagates(wf, seen, turn.outcome.value, turn.cache, env, fuel - 1);
        } else {
          PropagatingNeverReturns(wf, seen + [turn.outcome.value], turn.cache, env, fuel - 1);
        }
      }
    }
  }

  lemma TurnOutcome(wf: Workflow, seen: seq<Outcome>, cache: map<string, Outcome>, env: Env)
    requires !Ends(wf(seen)) && IdOf(wf, seen) !in cache && !Suspends(wf(seen), IdOf(wf, seen), env)
    ensures TurnOf(wf, seen, cache, env).outcome == Some(PerformedOutcome(wf(seen), IdOf(wf, seen), env))
  {
    hide IdOf, Perform;
  }

  lemma ErrorPropagates(
    wf: Workflow, seen: seq<Outcome>, o: Outcome, cache: map<string, Outcome>, env: Env, fuel: nat)
    requires Propagates(wf) && Unrecorded(wf(seen), o)
    ensures !Exec(wf, seen + [o], cache, env, fuel).end.Returned?
  {
    assert wf(seen + [Err(o.message)]).Fail?;
  }

  /** No statement of the list completes the instance. */
  predicate CompletesNothing(actions: seq<Action>) {
    forall a :: a in actions ==> !a.SetOutput? && !(a.SetStatus? && a.status.Completed?)
  }

  lemma {:induction false} WritesStay(r: Row, actions: seq<Action>)
    requires CompletesNothing(actions)
    ensures var r' := WriteAll(r, actions);
            r'.status.Completed? ==> r.status.Completed? && r'.output == r.output
  {
    if actions != [] {
      assert actions[|actions| - 1] in actions;
      WritesStay(r, actions[..|actions| - 1]);
    }
  }

  predicate HoldsNothingBack(r: Row) {
    r.tx.Some? ==> CompletesNothing(r.tx.value)
  }

  lemma ApplyStays(r: Row, a: Action)
    requires !a.SetOutput? && !(a.SetStatus? && a.status.Completed?) && HoldsNothingBack(r)
    ensures var r' := Apply(r, a);
            (r'.status.Completed? ==> r.status.Completed? && r'.output == r.output) && HoldsNothingBack(r')
  {
    if r.tx.Some? {
      WritesStay(r.(tx := None), r.tx.value);
    }
    if a.Commit? && r.tx.Some? {
      WritesTx(r.(tx := None), r.tx.value);
    }
  }

  lemma {:induction false} WritesTx(r: Row, actions: seq<Action>)
    ensures WriteAll(r, actions).tx == r.tx
  {
    if actions != [] {
      WritesTx(r, actions[..|actions| - 1]);
    }
  }

  lemma {:induction false} ActionsStay(r: Row, actions: seq<Action>)
    requires CompletesNothing(actions) && HoldsNothingBack(r)
    ensures var r' := ApplyAll(r, actions);
            (r'.status.Completed? ==> r.status.Completed? && r'.output == r.output) && HoldsNothingBack(r')
  {
    hide Apply, HoldsNothingBack;
    if actions != [] {
      assert actions[|actions| - 1] in actions;
      ActionsStay(r, actions[..|actions| - 1]);
      ApplyStays(ApplyAll(r, actions[..|actions| - 1]), actions[|actions| - 1]);
    }
  }

  /** Statements that complete nothing and delete nothing leave the claim as good as it was. */
  lemma HumbleClaims(wf: Workflow, r: Row, actions: seq<Action>, cut: nat)
    requires r.tx.None? && UniqueIds(r.history) && Claim(wf, r) && cut <= |actions|
    requires CompletesNothing(actions) && (r.status.Completed? ==> ClearHistory !in actions)
    ensures Claim(wf, After(r, actions, cut))
  {
    hide ApplyAll, UniqueIds, Fed, CacheOf;
    ActionsStay(r, actions[..cut]);
    ActionsUnique(r, actions[..cut]);
    var r' := After(r, actions, cut);
    if r'.status.Completed? {
      ActionsGrow(r, actions[..cut]);
      CacheGrows(r.history, r'.history);
      var seen :| Fed(wf, CacheOf(r.history), seen) && wf(seen) == Return(r.output);
      FedExtends(wf, CacheOf(r.history), CacheOf(r'.history), seen);
    }
  }

  /** What workflow code causes leaves status, lock, output, archive and timers alone. */
  lemma OneOfWorkflow(r: Row, a: Action)
    requires OfWorkflow(a) && (r.tx.Some? ==> forall b :: b in r.tx.value ==> Buffered(b))
    ensures var r' := Apply(r, a);
            && r'.status == r.status && r'.lock == r.lock && r'.output == r.output
            && r'.archive == r.archive && r'.timers == r.timers
            && (r'.tx.Some? ==> forall b :: b in r'.tx.value ==> Buffered(b))
  {
    if r.tx.Some? {
      BufferedApplied(r.(tx := None), r.tx.value);
    }
  }

  lemma {:induction false} OfWorkflowApplied(r: Row, actions: seq<Action>)
    requires (forall a :: a in actions ==> OfWorkflow(a)) && (r.tx.Some? ==> forall a :: a in r.tx.value ==> Buffered(a))
    ensures var r' := ApplyAll(r, actions);
            && r'.status == r.status && r'.lock == r.lock && r'.output == r.output
            && r'.archive == r.archive && r'.timers == r.timers
            && (r'.tx.Some? ==> forall a :: a in r'.tx.value ==> Buffered(a))
  {
    hide Apply, OfWorkflow, Buffered;
    if actions != [] {
      OfWorkflowApplied(r, actions[..|actions| - 1]);
      OneOfWorkflow(ApplyAll(r, actions[..|actions| - 1]), actions[|actions| - 1]);
    }
  }

  lemma {:induction false} BufferedApplied(r: Row, actions: seq<Action>)
    requires forall a :: a in actions ==> Buffered(a)
    ensures var r' := WriteAll(r, actions);
            && r'.status == r.status && r'.lock == r.lock && r'.output == r.output && r'.tx == r.tx
            && r'.archive == r.archive && r'.timers == r.timers && r'.subscriptions == r.subscriptions
  {
    if actions != [] {
      assert Buffered(actions[|actions| - 1]);
      BufferedApplied(r, actions[..|actions| - 1]);
    }
  }

  lemma TurnCloses(wf: Workflow, r: Row, seen: seq<Outcome>, cache: map<string, Outcome>, env: Env)
    requires r.tx.None? && !Ends(wf(seen))
    ensures ApplyAll(r, TurnOf(wf, seen, cache, env).actions).tx.None?
  {
    hide ApplyAll, IdOf, Perform;
    var c, id := wf(seen), IdOf(wf, seen);
    if id in cache || Suspends(c, id, env) {
      QuietTurn(wf, r, seen, cache, env);
    } else {
      PreparedRow(r, c);
      ApplyConcat(r, Preparation(c), Perform(c, id, env));
      PerformRows(ApplyAll(r, Preparation(c)), c, id, env, 0);
      PerformedCloses(ApplyAll(r, Preparation(c)), c, id, env);
    }
  }

  lemma PerformedCloses(r: Row, c: Call, id: string, env: Env)
    requires (c.Activity? || (c.WaitEvent? && env.pending(id).Some?)) && r.tx.None?
    ensures Performed(r, c, id, env).tx.None?
  {
  }

  /** A complete execution leaves no transaction open. */
  lemma {:induction false} ExecCloses(
    wf: Workflow, r: Row, seen: seq<Outcome>, cache: map<string, Outcome>, env: Env, fuel: nat)
    requires r.tx.None?
    ensures ApplyAll(r, Exec(wf, seen, cache, env, fuel).actions).tx.None?
    decreases fuel
  {
    hide ApplyAll, Exec, TurnOf, IdOf, Suspends;
    ExecStep(wf, seen, cache, env, fuel);
    ApplyNone(r);
    if fuel > 0 && !Ends(wf(seen)) {
      var turn := TurnOf(wf, seen, cache, env);
      TurnCloses(wf, r, seen, cache, env);
      if turn.outcome.Some? {
        var rest := Exec(wf, seen + [turn.outcome.value], turn.cache, env, fuel - 1);
        ApplyConcat(r, turn.actions, rest.actions);
        ExecCloses(wf, ApplyAll(r, turn.actions), seen + [turn.outcome.value], turn.cache, env, fuel - 1);
      }
    }
  }

  // ---- Every step keeps the claim ----

  lemma ConclusionCompletesNothing(r: Row, end: End, worker: string, env: Env)
    requires !end.Returned?
    ensures CompletesNothing(Conclusion(r, end, worker, env))
  {
    hide RollbackActions;
    RollbackCompletesNothing(r, env.compensate);
  }

  lemma RollbackCompletesNothing(r: Row, errors: Compensation -> Option<string>)
    ensures CompletesNothing(RollbackActions(r, errors)) && ClearHistory !in RollbackActions(r, errors)
  {
    PassShape(Lifo(r.compensations), ExecutedIds(r.history), errors);
  }

  lemma ReturnedClaims(wf: Workflow, r: Row, v: string, worker: string, cut: nat)
    requires r.tx.None? && !r.status.Completed? && cut <= 3
    requires exists seen :: Fed(wf, CacheOf(r.history), seen) && wf(seen) == Return(v)
    ensures Claim(wf, After(r, [SetOutput(v), SetStatus(Completed), ReleaseBy(worker)], cut))
  {
    hide After, Fed, CacheOf;
    WalkThree(r, SetOutput(v), SetStatus(Completed), ReleaseBy(worker), cut);
  }

  /** An execution over a row that is not completed claims what it has earned. */
  lemma ExecutionClaims(wf: Workflow, r: Row, worker: string, env: Env, fuel: nat, cut: nat)
    requires WellNamed(wf) && Intact(r) && r.tx.None? && r.status.Running?
    requires cut <= |ExecutionActions(wf, r, worker, env, fuel)|
    requires After(r, ExecutionActions(wf, r, worker, env, fuel), cut).status.Completed? ==> Straight(wf, r, env, fuel)
    ensures Claim(wf, After(r, ExecutionActions(wf, r, worker, env, fuel), cut))
  {
    hide ApplyAll, After, Exec, CacheOf, WellNamed, Intact, Fed, Conclusion, Straight;
    var plan := Exec(wf, [], CacheOf(r.history), env, fuel);
    var done := ApplyAll(r, plan.actions);
    var last := Conclusion(done, plan.end, worker, env);
    IntactIsUnique(r);
    ExecShape(wf, [], CacheOf(r.history), env, fuel);
    ExecCloses(wf, r, [], CacheOf(r.history), env, fuel);
    OfWorkflowApplied(r, plan.actions);
    ActionsUnique(r, plan.actions);
    CutConcat(r, plan.actions, last, cut);
    if cut <= |plan.actions| {
      HumbleClaims(wf, r, plan.actions, cut);
    } else if !After(r, ExecutionActions(wf, r, worker, env, fuel), cut).status.Completed? {
    } else if plan.end.Returned? {
      ExecFeeds(wf, r, env, fuel);
      ReturnsBy(done, plan.end, worker, env);
      ReturnedClaims(wf, done, plan.end.value, worker, cut - |plan.actions|);
    } else {
      ConclusionCompletesNothing(done, plan.end, worker, env);
      HumbleClaims(wf, done, last, cut - |plan.actions|);
    }
  }

  lemma IntactIsUnique(r: Row)
    requires Intact(r)
    ensures UniqueIds(r.history)
  {
  }

  lemma NothingFed(wf: Workflow, cache: map<string, Outcome>)
    ensures Fed(wf, cache, [])
  {
  }

  lemma ReturnsBy(r: Row, end: End, worker: string, env: Env)
    requires end.Returned?
    ensures Conclusion(r, end, worker, env) == [SetOutput(end.value), SetStatus(Completed), ReleaseBy(worker)]
  {
  }

  lemma ResumeClaims(wf: Workflow, r: Row, worker: string, expires: nat, env: Env, fuel: nat, cut: nat)
    requires WellNamed(wf) && Intact(r) && r.tx.None? && Claim(wf, r)
    requires cut <= |ResumeActions(wf, r, worker, expires, env, fuel)|
    requires After(r, ResumeActions(wf, r, worker, expires, env, fuel), cut).status.Completed? ==> Straight(wf, r, env, fuel)
    ensures Claim(wf, After(r, ResumeActions(wf, r, worker, expires, env, fuel), cut))
  {
    hide ApplyAll, After, CacheOf, WellNamed, Fed, ExecutionActions, UniqueIds, AllClear, Exec;
    var first := [Acquire(worker, expires), SetStatus(Running)];
    var started := Started(r, worker, expires);
    var second := ExecutionActions(wf, started, worker, env, fuel);
    WalkTwo(r, first[0], first[1], if cut <= 2 then cut else 2);
    CutConcat(r, first, second, cut);
    if cut <= 2 {
      HumbleClaims(wf, r, first, cut);
    } else {
      ExecutionClaims(wf, started, worker, env, fuel, cut - 2);
    }
  }

  lemma HandlersAreHumble(r: Row, now: nat, step: Step)
    ensures CompletesNothing(HandlerActions(r, now, step)) && ClearHistory !in HandlerActions(r, now, step)
  {
    hide RollbackActions, HasId;
    if step.Cancelling? {
      RollbackCompletesNothing(r, step.errors);
    }
  }

  /** The step is no execution that leaves the instance completed after rolling a transaction back. */
  ghost predicate StraightStep(wf: Workflow, w: World, step: Step, cut: nat) {
    (step.Resuming? || step.Cleaning?) && Acts(w, step) && Next(wf, w, step, cut).row.status.Completed? ==>
      Straight(wf, w.row, step.env, step.fuel)
  }

  /** Any such step, cut anywhere, keeps the claim. */
  lemma StepClaims(wf: Workflow, w: World, step: Step, cut: nat)
    requires WellNamed(wf) && Intact(w.row) && w.row.tx.None? && Claim(wf, w.row) && StraightStep(wf, w, step, cut)
    ensures Claim(wf, Next(wf, w, step, cut).row)
  {
    hide ApplyAll, After, CacheOf, WellNamed, Fed, ResumeActions, HandlerActions, UniqueIds, AllClear, Claim, Straight;
    var all := Actions(wf, w, step);
    var k := Clip(cut, all);
    if !step.Polling? && !step.Passing? {
      if step.Resuming? && Acts(w, step) {
        ResumeClaims(wf, w.row, step.worker, step.expires, step.env, step.fuel, k);
      } else if step.Cleaning? && Acts(w, step) {
        var r' := w.row.(lock := Unlocked);
        var second := if step.listed && Resumable(w.row.status)
          then ResumeActions(wf, r', step.worker, step.expires, step.env, step.fuel) else [];
        Walk(w.row, BreakLock, second, k);
        SameClaim(wf, w.row, r');
        AfterNone(r');
        if 1 <= k && step.listed && Resumable(w.row.status) {
          SameStraight(wf, w.row, r', step.env, step.fuel);
          ResumeClaims(wf, r', step.worker, step.expires, step.env, step.fuel, k - 1);
        }
      } else if step.Resuming? || step.Cleaning? {
        AfterNone(w.row);
      } else {
        HandlersAreHumble(w.row, w.now, step);
        HumbleClaims(wf, w.row, all, k);
      }
    }
  }

  lemma SameClaim(wf: Workflow, r: Row, r': Row)
    requires Claim(wf, r) && r'.status == r.status && r'.output == r.output && r'.history == r.history
    ensures Claim(wf, r')
  {
  }

  lemma SameStraight(wf: Workflow, r: Row, r': Row, env: Env, fuel: nat)
    requires r'.history == r.history
    ensures Straight(wf, r, env, fuel) <==> Straight(wf, r', env, fuel)
  {
  }

  /** No execution of the run leaves the instance completed after rolling a transaction back. */
  ghost predicate StraightRun(wf: Workflow, w: World, moves: seq<Move>)
    decreases |moves|
  {
    moves == [] ||
    (StraightStep(wf, w, moves[0].step, moves[0].cut) &&
     StraightRun(wf, Next(wf, w, moves[0].step, moves[0].cut), moves[1..]))
  }

  lemma {:induction false} RunClaims(wf: Workflow, w: World, moves: seq<Move>)
    requires WellNamed(wf) && Intact(w.row) && w.row.tx.None? && Claim(wf, w.row) && StraightRun(wf, w, moves)
    ensures Claim(wf, Reached(wf, w, moves).row)
    decreases |moves|
  {
    hide Next, Intact, Claim, WellNamed, StraightStep;
    if moves != [] {
      StepIntact(wf, w, moves[0].step, moves[0].cut);
      StepClaims(wf, w, moves[0].step, moves[0].cut);
      RunClaims(wf, Next(wf, w, moves[0].step, moves[0].cut), moves[1..]);
    }
  }

  /** Where workflow code passes on the errors of transactional activities, every run is such a run. */
  lemma {:induction false} PropagatingIsStraight(wf: Workflow, w: World, moves: seq<Move>)
    requires Propagates(wf)
    ensures StraightRun(wf, w, moves)
    decreases |moves|
  {
    hide Next, Propagates, Exec, CacheOf;
    if moves != [] {
      var step := moves[0].step;
      if step.Resuming? || step.Cleaning? {
        PropagatingNeverReturns(wf, [], CacheOf(w.row.history), step.env, step.fuel);
      }
      PropagatingIsStraight(wf, Next(wf, w, step, moves[0].cut), moves[1..]);
    }
  }
}
