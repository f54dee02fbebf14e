/** When the records of an instance stand in the order of its calls: exactly which steps keep that. */
module CallOrder {
  import opened Prelude
  import opened ActivityIds
  import opened Clock
  import opened Locks
  import opened Tables
  import opened Workflows
  import opened Replay
  import opened Saga
  import opened Machine
  import opened Integrity
  import opened Accounts
  import opened Reachable
  import opened Safety

  // ---- A record out of order ----

  /** A record out of its place leads off the path, or spoils the account. */
  lemma MisplacedLeaves(wf: Workflow, base: Row, r: Row, r': Row, e: Event)
    requires Inv(wf, base, r) && IsOutcome(e) && !e.kind.ActivityFailed? && !Placed(wf, r, e)
    requires r'.history == Appended(r.history, e) && r'.userRows == r.userRows
    ensures !Inv(wf, base, r')
  {
    hide IdOf, KeepsClear, IsOutcome, IsRun, HasId, Registered, TxRows, Outs;
    var records := Outcomes(r.history);
    assert r'.history == r.history + [e];
    FilterSnoc(r.history, e, IsOutcome);
    RunGoesOnExactly(wf, records, e);
    RecordSnoc(wf, records, e, r.compensations[|base.compensations|..]);
    if IsRun(wf, records + [e]) {
      assert |TxRows(wf, records + [e])| == |TxRows(wf, records)| + 1;
    }
  }

  /** What a delivery or a timeout has written. */
  lemma AnswerRows(r: Row, worker: string, expires: nat, e: Event, ch: string, cut: nat)
    requires r.tx.None? && 2 <= cut <= 5
    ensures var r' := After(r, AnswerActions(worker, expires, e, ch), cut);
            r'.history == Appended(r.history, e) && r'.userRows == r.userRows
  {
    hide ApplyAll, After, Write;
    var first, second := [Acquire(worker, expires), Append(e)], [ClearWaiting(ch), SetStatus(Running), ReleaseBy(worker)];
    assert AnswerActions(worker, expires, e, ch) == first + second;
    WalkTwo(r, first[0], first[1], 2);
    CutConcat(r, first, second, cut);
    WalkThree(ApplyAll(r, first), second[0], second[1], second[2], cut - 2);
    AnswerWrites(r, worker, expires, e, ch);
  }

  lemma AnswerWrites(r: Row, worker: string, expires: nat, e: Event, ch: string)
    ensures var r2 := Write(Write(r, Acquire(worker, expires)), Append(e));
            var r3 := Write(r2, ClearWaiting(ch));
            var r4 := Write(r3, SetStatus(Running));
            var r5 := Write(r4, ReleaseBy(worker));
            forall x :: x in [r2, r3, r4, r5] ==> x.history == Appended(r.history, e) && x.userRows == r.userRows
  {
  }

  lemma FiringLeaves(wf: Workflow, w: World, step: Step)
    requires Healthy(wf, w) && step.Firing? && Acts(w, step) && CallId(step.id)
    requires !Placed(wf, w.row, TimerEvent(step.id))
    ensures !Healthy(wf, Next(wf, w, step, 3))
  {
    hide Inv, After, ApplyAll, Placed, TimersFit, WaitsFit, StatusFits, CallId, IsOutcome;
    HealthyOpen(wf, w);
    var a, b, c := Acquire(step.worker, step.expires), DropTimer(step.id), Append(TimerEvent(step.id));
    LeftStays(w, [a, b, c], 3);
    WalkThree(w.row, a, b, c, 3);
    CallIsOutcome(TimerEvent(step.id));
    MisplacedLeaves(wf, w.base, w.row, Next(wf, w, step, 3).row, TimerEvent(step.id));
  }

  lemma TimingOutLeaves(wf: Workflow, w: World, step: Step, cut: nat)
    requires Healthy(wf, w) && step.TimingOut? && Acts(w, step) && CallId(step.id) && 2 <= cut <= 5
    requires !Placed(wf, w.row, Event(step.id, MessageTimeout, Json(step.text)))
    ensures !Healthy(wf, Next(wf, w, step, cut))
  {
    hide Inv, After, ApplyAll, Placed, TimersFit, WaitsFit, StatusFits, CallId, IsOutcome;
    HealthyOpen(wf, w);
    var e := Event(step.id, MessageTimeout, Json(step.text));
    LeftStays(w, AnswerActions(step.worker, step.expires, e, step.channel), cut);
    AnswerRows(w.row, step.worker, step.expires, e, step.channel, cut);
    CallIsOutcome(e);
    MisplacedLeaves(wf, w.base, w.row, Next(wf, w, step, cut).row, e);
  }

  // ---- Exactly which steps keep the order ----

  /**
   * A possible step keeps the records in the order of the calls exactly if the timer or timeout
   * it records, should it get that far, is recorded already or answers the next call, and it
   * leaves no other wait than that of the first call between the two deletions of a recur.
   */
  lemma StepKeepsExactly(wf: Workflow, w: World, step: Step, cut: nat)
    requires WellNamed(wf) && Propagates(wf) && Healthy(wf, w) && FormedWorld(w) && Possible(w, step)
    ensures Healthy(wf, Next(wf, w, step, cut)) <==> InOrder(wf, w, step, cut)
  {
    hide WellNamed, Propagates, Healthy, ResumeActions, HandlerActions, Left, Placed, CleanCut, FormedWorld, CallId;
    ClipTwice(wf, w, step, cut);
    var k := Clip(cut, Actions(wf, w, step));
    if InOrder(wf, w, step, cut) {
      StepKeeps(wf, w, step, cut);
    } else if !Acts(w, step) {
      NothingOffered(wf, w, step);
      CleanWithout(wf, w.row, [], 0);
    } else if step.Resuming? {
      ResumeKeeps(wf, w, step.worker, step.expires, step.env, step.fuel, k);
    } else if step.Cleaning? {
      CleaningKeeps(wf, w, step, k);
    } else {
      HandlersAreClean(wf, w, step, cut);
      FoundIsCall(w, step);
      HandlerLength(wf, w, step);
      if step.Firing? {
        FiringLeaves(wf, w, step);
      } else {
        TimingOutLeaves(wf, w, step, k);
      }
    }
  }

  lemma HandlersAreClean(wf: Workflow, w: World, step: Step, cut: nat)
    requires !step.Resuming? && !step.Cleaning?
    ensures Clean(wf, w, step, cut)
  {
    hide RollbackActions, FirstWaits;
    if step.Cancelling? {
      CancelClearsNothing(w.row, step.errors, step.worker);
    }
    assert ClearHistory !in Actions(wf, w, step);
  }

  lemma HandlerLength(wf: Workflow, w: World, step: Step)
    requires Acts(w, step)
    ensures step.Firing? ==> |Actions(wf, w, step)| == 3
    ensures step.TimingOut? ==> |Actions(wf, w, step)| == 5
  {
  }

  lemma FoundIsCall(w: World, step: Step)
    requires FormedWorld(w) && Possible(w, step)
    ensures step.Firing? || step.TimingOut? ==> CallId(step.id)
  {
    hide SleepId, ReceiveId, CallId, FormedRow;
    if step.Firing? {
      SleepIsCall(step.id);
    } else if step.TimingOut? {
      assert ReceiveId(Late(step.channel, step.id).channel, Late(step.channel, step.id).activityId);
      ReceiveIsCall(step.channel, step.id);
    }
  }

  // ---- Runs ----

  ghost predicate OrderedRun(wf: Workflow, w: World, moves: seq<Move>)
    decreases |moves|
  {
    moves == [] ||
    (InOrder(wf, w, moves[0].step, moves[0].cut) &&
     OrderedRun(wf, Next(wf, w, moves[0].step, moves[0].cut), moves[1..]))
  }

  ghost predicate HealthyThroughout(wf: Workflow, w: World, moves: seq<Move>)
    decreases |moves|
  {
    Healthy(wf, w) &&
    (moves == [] || HealthyThroughout(wf, Next(wf, w, moves[0].step, moves[0].cut), moves[1..]))
  }

  lemma {:induction false} RunKeeps(wf: Workflow, w: World, moves: seq<Move>)
    requires WellNamed(wf) && Propagates(wf) && Healthy(wf, w) && OrderedRun(wf, w, moves)
    ensures Healthy(wf, Reached(wf, w, moves))
    decreases |moves|
  {
    hide WellNamed, Propagates, Healthy, InOrder, Next;
    if moves != [] {
      StepKeeps(wf, w, moves[0].step, moves[0].cut);
      RunKeeps(wf, Next(wf, w, moves[0].step, moves[0].cut), moves[1..]);
    }
  }

  /** A possible run keeps the records in the order of the calls all along exactly if it is ordered. */
  lemma {:induction false} RunKeepsExactly(wf: Workflow, w: World, moves: seq<Move>)
    requires WellNamed(wf) && Propagates(wf) && Healthy(wf, w) && FormedWorld(w) && PossibleRun(wf, w, moves)
    ensures HealthyThroughout(wf, w, moves) <==> OrderedRun(wf, w, moves)
    decreases |moves|
  {
    hide WellNamed, Propagates, Healthy, InOrder, Next, FormedWorld, Possible;
    if moves != [] {
      var w' := Next(wf, w, moves[0].step, moves[0].cut);
      StepKeepsExactly(wf, w, moves[0].step, moves[0].cut);
      StepFormed(wf, w, moves[0].step, moves[0].cut);
      if Healthy(wf, w') {
        RunKeepsExactly(wf, w', moves[1..]);
      } else {
        assert !HealthyThroughout(wf, w', moves[1..]);
      }
    }
  }

  lemma NewIsHealthy(wf: Workflow)
    ensures Healthy(wf, NEW)
  {
    IterationBegins(wf, NEW);
  }

  /** What polls of this iteration have found is recorded already, or answers the next call. */
  lemma CurrentIsPlaced(wf: Workflow, w: World, step: Step)
    requires Healthy(wf, w) && Current(w, step)
    ensures step.Firing? ==> Placed(wf, w.row, TimerEvent(step.id))
    ensures step.TimingOut? ==> Placed(wf, w.row, Event(step.id, MessageTimeout, Json(step.text)))
  {
    hide Inv, StatusFits, IdOf, HasId;
    if step.TimingOut? {
      WaitPlaced(wf, w, step.channel, Event(step.id, MessageTimeout, Json(step.text)));
    }
  }

  /**
   * A run is ordered if its handlers take up what polls of the same iteration have found, and
   * nothing dies between the two deletions of a recur with a wait left over.
   */
  lemma {:induction false} CurrentIsOrdered(wf: Workflow, w: World, moves: seq<Move>)
    requires WellNamed(wf) && Propagates(wf) && Healthy(wf, w) && CurrentRun(wf, w, moves)
    ensures OrderedRun(wf, w, moves)
    decreases |moves|
  {
    hide WellNamed, Propagates, Healthy, Next, Current, Clean, Placed;
    if moves != [] {
      CurrentIsPlaced(wf, w, moves[0].step);
      StepKeeps(wf, w, moves[0].step, moves[0].cut);
      CurrentIsOrdered(wf, Next(wf, w, moves[0].step, moves[0].cut), moves[1..]);
    }
  }
}
