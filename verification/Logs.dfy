/** Recur conserves the log: archive and history together hold every accepted event, in order. */
module Logs {
  import opened Prelude
  import opened ActivityIds
  import opened Clock
  import opened Locks
  import opened Tables
  import opened Workflows
  import opened Replay
  import opened Saga
  import opened Machine
  import opened Integrity

  /** Everything ever recorded for the instance. */
  function Log(r: Row): seq<Event> {
    r.archive + r.history
  }

  /** The event a statement adds to the history, unless its id is taken. */
  function AcceptedWrite(r: Row, a: Action): seq<Event> {
    if a.Append? && !HasId(r.history, a.event.activityId) then [a.event] else []
  }

  function AcceptedWrites(r: Row, actions: seq<Action>): seq<Event> {
    if actions == [] then []
    else
      AcceptedWrites(r, actions[..|actions| - 1])
      + AcceptedWrite(WriteAll(r, actions[..|actions| - 1]), actions[|actions| - 1])
  }

  /** Inside a transaction events are accepted when it commits. */
  function AcceptedApply(r: Row, a: Action): seq<Event> {
    if r.tx.None? then AcceptedWrite(r, a)
    else if a.Commit? then AcceptedWrites(r.(tx := None), r.tx.value)
    else []
  }

  function Accepted(r: Row, actions: seq<Action>): seq<Event> {
    if actions == [] then []
    else
      Accepted(r, actions[..|actions| - 1])
      + AcceptedApply(ApplyAll(r, actions[..|actions| - 1]), actions[|actions| - 1])
  }

  /** Statements that leave archiving alone. */
  predicate NoArchiving(actions: seq<Action>) {
    CopyToArchive !in actions && ClearHistory !in actions
  }

  lemma WriteLogs(r: Row, a: Action)
    requires !a.CopyToArchive? && !a.ClearHistory?
    ensures Log(Write(r, a)) == Log(r) + AcceptedWrite(r, a)
    ensures Write(r, a).tx == r.tx
  {
  }

  lemma {:induction false} WritesLog(r: Row, actions: seq<Action>)
    requires NoArchiving(actions)
    ensures Log(WriteAll(r, actions)) == Log(r) + AcceptedWrites(r, actions)
    ensures WriteAll(r, actions).tx == r.tx
  {
    hide Write, Log, AcceptedWrite;
    if actions != [] {
      var init := actions[..|actions| - 1];
      WritesLog(r, init);
      WriteLogs(WriteAll(r, init), actions[|actions| - 1]);
    }
  }

  predicate NoArchivingOpen(r: Row) {
    r.tx.Some? ==> NoArchiving(r.tx.value)
  }

  lemma ApplyLogs(r: Row, a: Action)
    requires !a.CopyToArchive? && !a.ClearHistory? && NoArchivingOpen(r)
    ensures Log(Apply(r, a)) == Log(r) + AcceptedApply(r, a)
    ensures NoArchivingOpen(Apply(r, a))
  {
    if a.Commit? && r.tx.Some? {
      WritesLog(r.(tx := None), r.tx.value);
    } else if !(r.tx.Some? && Buffered(a)) {
      WriteLogs(r, a);
    }
  }

  /** Without archiving, the log gains what is accepted, at its end. */
  lemma {:induction false} ActionsLog(r: Row, actions: seq<Action>)
    requires NoArchiving(actions) && NoArchivingOpen(r)
    ensures Log(ApplyAll(r, actions)) == Log(r) + Accepted(r, actions)
    ensures NoArchivingOpen(ApplyAll(r, actions))
  {
    hide Apply, Log, AcceptedApply, NoArchivingOpen;
    if actions != [] {
      var init := actions[..|actions| - 1];
      ActionsLog(r, init);
      ApplyLogs(ApplyAll(r, init), actions[|actions| - 1]);
    }
  }

  lemma {:induction false} AcceptedConcat(r: Row, first: seq<Action>, second: seq<Action>)
    ensures Accepted(r, first + second) == Accepted(r, first) + Accepted(ApplyAll(r, first), second)
  {
    hide Apply, AcceptedApply;
    if second == [] {
      assert first + second == first;
    } else {
      var init := second[..|second| - 1];
      AcceptedConcat(r, first, init);
      ApplyConcat(r, first, init);
      assert (first + second)[..|first + second| - 1] == first + init;
    }
  }

  // ---- One step ----

  /** The archiving statements of a step stand together, if it has any. */
  predicate SplitAt(actions: seq<Action>, n: nat) {
    && n + 2 <= |actions| && actions[n] == CopyToArchive && actions[n + 1] == ClearHistory
    && NoArchiving(actions[..n]) && NoArchiving(actions[n + 2..])
  }

  ghost predicate Archives(actions: seq<Action>) {
    NoArchiving(actions) || exists n :: SplitAt(actions, n)
  }

  lemma ArchivesLater(first: seq<Action>, second: seq<Action>)
    requires NoArchiving(first) && Archives(second)
    ensures Archives(first + second)
  {
    if n: nat :| SplitAt(second, n) {
      assert (first + second)[..|first| + n] == first + second[..n];
      assert (first + second)[|first| + n + 2..] == second[n + 2..];
      assert SplitAt(first + second, |first| + n);
    }
  }

  lemma ConclusionArchives(r: Row, end: End, worker: string, env: Env)
    ensures Archives(Conclusion(r, end, worker, env))
  {
    hide RollbackActions, StoredTimeout;
    if end.Recurs? {
      assert SplitAt(Conclusion(r, end, worker, env), 0);
    } else {
      hide SplitAt;
      RollbackNoArchiving(r, env.compensate);
    }
  }

  lemma RollbackNoArchiving(r: Row, errors: Compensation -> Option<string>)
    ensures NoArchiving(RollbackActions(r, errors))
  {
    PassShape(Lifo(r.compensations), ExecutedIds(r.history), errors);
  }

  lemma ResumeArchives(wf: Workflow, r: Row, worker: string, expires: nat, env: Env, fuel: nat)
    ensures Archives(ResumeActions(wf, r, worker, expires, env, fuel))
  {
    hide Exec, Conclusion, ApplyAll, Archives;
    var started := Started(r, worker, expires);
    var plan := Exec(wf, [], CacheOf(started.history), env, fuel);
    ExecShape(wf, [], CacheOf(started.history), env, fuel);
    ConclusionArchives(ApplyAll(started, plan.actions), plan.end, worker, env);
    var last := Conclusion(ApplyAll(started, plan.actions), plan.end, worker, env);
    ArchivesLater(plan.actions, last);
    ArchivesLater([Acquire(worker, expires), SetStatus(Running)], plan.actions + last);
  }

  lemma StepArchives(wf: Workflow, w: World, step: Step)
    ensures Archives(Actions(wf, w, step))
  {
    hide ResumeActions, RollbackActions, HasId;
    if step.Resuming? {
      ResumeArchives(wf, w.row, step.worker, step.expires, step.env, step.fuel);
    } else if step.Cleaning? {
      ResumeArchives(wf, w.row.(lock := Unlocked), step.worker, step.expires, step.env, step.fuel);
      ArchivesLater([BreakLock], ResumeActions(wf, w.row.(lock := Unlocked), step.worker, step.expires, step.env, step.fuel));
    } else if step.Cancelling? {
      RollbackNoArchiving(w.row, step.errors);
    }
  }

  /** The last thing done was to copy the history to the archive; it was not deleted. */
  predicate CopiedOnly(actions: seq<Action>, cut: nat)
    requires cut <= |actions|
  {
    0 < cut && actions[cut - 1] == CopyToArchive
  }

  /** Copying and deleting move the history; copying alone doubles it. */
  lemma ArchivingLogs(r: Row)
    ensures Log(ApplyAll(r, [CopyToArchive])) == Log(r) + r.history
    ensures Accepted(r, [CopyToArchive]) == [] && Accepted(r, [CopyToArchive, ClearHistory]) == []
    ensures Log(ApplyAll(r, [CopyToArchive, ClearHistory])) == Log(r)
    ensures ApplyAll(r, [CopyToArchive, ClearHistory]).tx == r.tx
    ensures ApplyAll(r, [CopyToArchive]).history == r.history
  {
    ApplyPair(r, CopyToArchive, ClearHistory);
    assert [CopyToArchive][..0] == [];
    assert [CopyToArchive, ClearHistory][..1] == [CopyToArchive];
  }

  lemma SplitLogs(r: Row, actions: seq<Action>, n: nat, cut: nat)
    requires r.tx.None? && SplitAt(actions, n) && cut <= |actions|
    ensures Log(ApplyAll(r, actions[..cut])) ==
            Log(r) + Accepted(r, actions[..cut])
            + if CopiedOnly(actions, cut) then ApplyAll(r, actions[..cut]).history else []
  {
    hide ApplyAll, Accepted, Log;
    var front, mid := actions[..n], ApplyAll(r, actions[..n]);
    ActionsLog(r, front);
    ArchivingLogs(mid);
    if cut <= n {
      assert actions[..cut] == front[..cut];
      ActionsLog(r, front[..cut]);
    } else if cut == n + 1 {
      assert actions[..cut] == front + [CopyToArchive];
      ApplyConcat(r, front, [CopyToArchive]);
      AcceptedConcat(r, front, [CopyToArchive]);
    } else {
      var pair, back := [CopyToArchive, ClearHistory], actions[n + 2..cut];
      assert actions[..cut] == front + (pair + back);
      assert back == actions[n + 2..][..cut - n - 2];
      ApplyConcat(r, front, pair + back);
      AcceptedConcat(r, front, pair + back);
      ApplyConcat(mid, pair, back);
      AcceptedConcat(mid, pair, back);
      ActionsLog(ApplyAll(mid, pair), back);
      assert actions[cut - 1] == if cut == n + 2 then ClearHistory else actions[n + 2..][cut - n - 3];
    }
  }

  /** What a step adds to the log, cut anywhere. */
  lemma StepLogs(wf: Workflow, w: World, step: Step, cut: nat)
    requires w.row.tx.None? && !step.Polling? && !step.Passing?
    ensures var all, r' := Actions(wf, w, step), Next(wf, w, step, cut).row;
            var k := Clip(cut, all);
            Log(r') == Log(w.row) + Accepted(w.row, all[..k]) + if CopiedOnly(all, k) then r'.history else []
  {
    hide ApplyAll, Accepted, Log, Actions;
    var all := Actions(wf, w, step);
    var k := Clip(cut, all);
    StepArchives(wf, w, step);
    if NoArchiving(all) {
      ActionsLog(w.row, all[..k]);
    } else {
      var n: nat :| SplitAt(all, n);
      SplitLogs(w.row, all, n, k);
    }
    CrashLogs(ApplyAll(w.row, all[..k]));
  }

  lemma CrashLogs(r: Row)
    ensures Log(Crash(r)) == Log(r)
  {
  }

  // ---- Runs ----

  /** The events a step accepts before it dies. */
  function AcceptedBy(wf: Workflow, w: World, step: Step, cut: nat): seq<Event> {
    Accepted(w.row, Actions(wf, w, step)[..Clip(cut, Actions(wf, w, step))])
  }

  /** The step dies with a non-empty history copied to the archive and not deleted. */
  predicate Doubles(wf: Workflow, w: World, step: Step, cut: nat) {
    && CopiedOnly(Actions(wf, w, step), Clip(cut, Actions(wf, w, step)))
    && Next(wf, w, step, cut).row.history != []
  }

  /** Every event accepted during a run, in order. */
  function AcceptedRun(wf: Workflow, w: World, moves: seq<Move>): seq<Event>
    decreases |moves|
  {
    if moves == [] then []
    else
      AcceptedBy(wf, w, moves[0].step, moves[0].cut)
      + AcceptedRun(wf, Next(wf, w, moves[0].step, moves[0].cut), moves[1..])
  }

  /** No worker of the run died between copying a non-empty history and deleting it. */
  ghost predicate ArchivesWhole(wf: Workflow, w: World, moves: seq<Move>)
    decreases |moves|
  {
    moves == [] ||
    (!Doubles(wf, w, moves[0].step, moves[0].cut)
     && ArchivesWhole(wf, Next(wf, w, moves[0].step, moves[0].cut), moves[1..]))
  }

  lemma QuietStepLogs(wf: Workflow, w: World, step: Step, cut: nat)
    requires step.Polling? || step.Passing?
    ensures Next(wf, w, step, cut).row == w.row && AcceptedBy(wf, w, step, cut) == [] && !Doubles(wf, w, step, cut)
  {
  }

  /** What one step does to the log, and that it never loses an event. */
  lemma StepAddsToLog(wf: Workflow, w: World, step: Step, cut: nat)
    requires w.row.tx.None?
    ensures var r' := Next(wf, w, step, cut).row;
            var expected := Log(w.row) + AcceptedBy(wf, w, step, cut);
            Log(r') == expected + if Doubles(wf, w, step, cut) then r'.history else []
  {
    hide Actions, Log, Accepted, Next;
    var expected := Log(w.row) + AcceptedBy(wf, w, step, cut);
    assert expected + [] == expected;
    if step.Polling? || step.Passing? {
      QuietStepLogs(wf, w, step, cut);
      assert Log(w.row) + [] == Log(w.row);
    } else {
      StepLogs(wf, w, step, cut);
    }
  }

  /** A step conserves the log exactly if it does not die between the copy and the deletion. */
  lemma StepConservesLogExactly(wf: Workflow, w: World, step: Step, cut: nat)
    requires w.row.tx.None?
    ensures Log(Next(wf, w, step, cut).row) == Log(w.row) + AcceptedBy(wf, w, step, cut) <==> !Doubles(wf, w, step, cut)
  {
    hide Actions, Log, Accepted, Next, AcceptedBy;
    StepAddsToLog(wf, w, step, cut);
    var r' := Next(wf, w, step, cut).row;
    var expected := Log(w.row) + AcceptedBy(wf, w, step, cut);
    if Doubles(wf, w, step, cut) {
      assert |Log(r')| == |expected| + |r'.history|;
    } else {
      assert expected + [] == expected;
    }
  }

  lemma {:induction false} RunAddsToLog(wf: Workflow, w: World, moves: seq<Move>)
    requires w.row.tx.None?
    ensures var expected := Log(w.row) + AcceptedRun(wf, w, moves);
            && |Log(Reached(wf, w, moves).row)| >= |expected|
            && (ArchivesWhole(wf, w, moves) ==> Log(Reached(wf, w, moves).row) == expected)
            && (!ArchivesWhole(wf, w, moves) ==> |Log(Reached(wf, w, moves).row)| > |expected|)
    decreases |moves|
  {
    hide Next, AcceptedBy, Doubles, Log;
    if moves != [] {
      var step, cut := moves[0].step, moves[0].cut;
      StepGrows(wf, w, step, cut);
      StepAddsToLog(wf, w, step, cut);
      DoublesSome(wf, w, step, cut);
      RunAddsToLog(wf, Next(wf, w, step, cut), moves[1..]);
    }
  }

  lemma DoublesSome(wf: Workflow, w: World, step: Step, cut: nat)
    ensures Doubles(wf, w, step, cut) ==> Next(wf, w, step, cut).row.history != []
  {
  }

  /**
   * Over any run, with any number of recurs, the archive followed by the live history is the
   * sequence of all accepted events, in the order of their acceptance, if and only if no worker
   * died between copying a non-empty history and deleting it.
   */
  lemma LogIsConserved(wf: Workflow, w: World, moves: seq<Move>)
    requires w.row.tx.None?
    ensures Log(Reached(wf, w, moves).row) == Log(w.row) + AcceptedRun(wf, w, moves) <==> ArchivesWhole(wf, w, moves)
  {
    hide Reached, AcceptedRun, ArchivesWhole, Log;
    RunAddsToLog(wf, w, moves);
  }

  // ---- A new iteration ----

  /** Only a recur ends with the history deleted. */
  lemma ResumeRecurs(wf: Workflow, r: Row, worker: string, expires: nat, env: Env, fuel: nat)
    requires r.tx.None? && Clears(ResumeActions(wf, r, worker, expires, env, fuel))
    ensures StartsAfresh(ApplyAll(r, ResumeActions(wf, r, worker, expires, env, fuel)))
  {
    hide ApplyAll, Exec, Conclusion, Write, CacheOf;
    var first := [Acquire(worker, expires), SetStatus(Running)];
    var started := Started(r, worker, expires);
    var plan := Exec(wf, [], CacheOf(started.history), env, fuel);
    var done := ApplyAll(started, plan.actions);
    var last := Conclusion(done, plan.end, worker, env);
    PlanClearsNothing(wf, started, env, fuel);
    if !plan.end.Recurs? {
      ConclusionClears(done, plan.end, worker, env);
      assert false;
    }
    ExecCloses(wf, started, [], CacheOf(started.history), env, fuel);
    WalkTwo(r, first[0], first[1], 2);
    StartedRow(r, worker, expires);
    ApplyConcat(r, first, plan.actions + last);
    ApplyConcat(started, plan.actions, last);
    RecurEnds(done, plan.end, worker, env);
  }

  lemma StartedRow(r: Row, worker: string, expires: nat)
    ensures Write(Write(r, Acquire(worker, expires)), SetStatus(Running)) == Started(r, worker, expires)
  {
  }

  /** The recur event alone, and nothing that waits. */
  ghost predicate StartsAfresh(r: Row) {
    && (exists input :: r.history == [RecurEvent(input)])
    && r.status.Recurred? && r.timers == map[] && r.subscriptions == map[]
  }

  lemma RecurEnds(r: Row, end: End, worker: string, env: Env)
    requires r.tx.None? && end.Recurs?
    ensures StartsAfresh(ApplyAll(r, Conclusion(r, end, worker, env)))
  {
    hide ApplyAll;
    var all := RecurActions(end.input, worker);
    RecurRows(r, end.input, worker, |all|);
    assert all[..|all|] == all;
  }

  /**
   * When a step that deletes the history completes - an execution that recurs, started by a worker
   * or by the cleanup - the live history holds the recur event alone: the new iteration sees no
   * earlier outcome, and nothing of the last one waits.
   */
  lemma RecurStartsAfresh(wf: Workflow, w: World, step: Step)
    requires w.row.tx.None? && Clears(Actions(wf, w, step))
    ensures var w' := Next(wf, w, step, |Actions(wf, w, step)|);
            StartsAfresh(w'.row) && Outcomes(w'.row.history) == [] && w'.iteration == w.iteration + 1
  {
    hide ApplyAll, ResumeActions, HandlerActions, Outcomes, StartsAfresh;
    var all := Actions(wf, w, step);
    assert all[..|all|] == all;
    if step.Resuming? {
      ResumeRecurs(wf, w.row, step.worker, step.expires, step.env, step.fuel);
    } else if step.Cleaning? {
      var r' := w.row.(lock := Unlocked);
      var second := ResumeActions(wf, r', step.worker, step.expires, step.env, step.fuel);
      assert all == [BreakLock] + second;
      Walk(w.row, BreakLock, second, 0);
      ResumeRecurs(wf, r', step.worker, step.expires, step.env, step.fuel);
    } else {
      HandlersAreHumble(w.row, w.now, step);
    }
    FreshRow(ApplyAll(w.row, all));
  }

  lemma FreshRow(r: Row)
    requires StartsAfresh(r)
    ensures StartsAfresh(Crash(r)) && Outcomes(r.history) == []
  {
    NoOutcomes(r);
  }
}
