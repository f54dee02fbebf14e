/**
 * One instance among any number of workers that may die anywhere: every step of the system
 * that touches its tables.
 */
module Machine {
  import opened Prelude
  import opened ActivityIds
  import opened Clock
  import opened Locks
  import opened Tables
  import opened Workflows
  import opened Replay
  import opened Saga

  /** A timed-out wait, as a poll found it. */
  datatype Late = Late(channel: string, activityId: string)

  datatype World = World(
    row: Row,
    now: nat,
    due: map<string, nat>,    // expired timers that polls of this iteration have found, with their expiry
    late: set<Late>,          // timed-out waits that polls of this iteration have found
    found: set<string>,       // expired timers that polls have ever found
    foundLate: set<Late>,     // timed-out waits that polls have ever found
    base: Row,                // the row when the current iteration began
    iteration: nat)           // how often the instance has recurred

  const NEW: World := World(FRESH, 0, map[], {}, {}, {}, FRESH, 0)

  datatype Step =
    // a worker starts or resumes the instance; whether it was right to do so does not matter
    | Resuming(worker: string, expires: nat, env: Env, fuel: nat)
    // the stale-lock cleanup; `listed` says whether the instance was among the 100 it selected
    | Cleaning(worker: string, expires: nat, env: Env, fuel: nat, listed: bool)
    // a found timer is handled; the worker then resumes the instance as a step of its own
    | Firing(worker: string, expires: nat, id: string)
    // a published message is delivered
    | Delivering(worker: string, expires: nat, channel: string, message: nat, text: string)
    // a found timed-out wait is handled
    | TimingOut(worker: string, expires: nat, channel: string, id: string, text: string)
    // a recurred instance is set running again
    | Restarting(worker: string, expires: nat)
    // a cancellation, after the status was read as `seen`
    | Cancelling(worker: string, expires: nat, seen: Status, errors: Compensation -> Option<string>)
    // both polls
    | Polling
    | Passing(duration: nat)

  function FailureEvent(message: string): Event {
    Event("", WorkflowFailed, Json(message))
  }

  function RecurEvent(input: string): Event {
    Event("recur", ActivityCompleted, Json(input))
  }

  function TimerEvent(id: string): Event {
    Event(id, ActivityCompleted, Json(""))
  }

  function StoredTimeout(t: Option<nat>): Option<nat> {
    if t.None? then None else Some(Seconds(t.value))
  }

  /** ArchiveHistory and CleanupInstanceSubscriptions. */
  const CLEARING: seq<Action> := [CopyToArchive, ClearHistory, DropTimers, DropSubscriptions]

  /** The record of the recur, the status, and the release of the lock. */
  function Beginning(input: string, worker: string): seq<Action> {
    [Append(RecurEvent(input)), SetStatus(Recurred), ReleaseBy(worker)]
  }

  function RecurActions(input: string, worker: string): seq<Action> {
    CLEARING + Beginning(input, worker)
  }

  /** What executeWorkflow and its suspend handlers do once workflow code has stopped. */
  function Conclusion(r: Row, end: End, worker: string, env: Env): seq<Action> {
    match end
    case Returned(v) => [SetOutput(v), SetStatus(Completed), ReleaseBy(worker)]
    case Raised(m) =>
      RollbackActions(r, env.compensate) + [Append(FailureEvent(m)), SetStatus(Failed), ReleaseBy(worker)]
    case Recurs(input) => RecurActions(input, worker)
    case SleepsUntil(id, expires) =>
      [PutTimer(id, Seconds(expires)), SetStatus(WaitingForTimer), ReleaseBy(worker)]
    case WaitsFor(channel, id, t) =>
      [SetWaiting(channel, Wait(id, StoredTimeout(t))), SetStatus(WaitingForMessage), ReleaseBy(worker)]
    case Exhausted => []
  }

  /** The instance as an execution finds it: locked and running. */
  function Started(r: Row, worker: string, expires: nat): Row {
    r.(lock := Locked(worker, expires), status := Running)
  }

  function ExecutionActions(wf: Workflow, r: Row, worker: string, env: Env, fuel: nat): seq<Action> {
    var plan := Exec(wf, [], CacheOf(r.history), env, fuel);
    plan.actions + Conclusion(ApplyAll(r, plan.actions), plan.end, worker, env)
  }

  function ResumeActions(wf: Workflow, r: Row, worker: string, expires: nat, env: Env, fuel: nat): seq<Action> {
    [Acquire(worker, expires), SetStatus(Running)]
    + ExecutionActions(wf, Started(r, worker, expires), worker, env, fuel)
  }

  /** The id under which a delivery records its message. */
  function DeliveryId(r: Row, channel: string, message: nat): string
    requires channel in r.subscriptions
  {
    var wait := r.subscriptions[channel];
    if wait.Some? && wait.value.activityId != "" then wait.value.activityId
    else Render("channel:" + channel, message)
  }

  function DeliveryEvent(r: Row, channel: string, message: nat, text: string): Event
    requires channel in r.subscriptions
  {
    Event(DeliveryId(r, channel, message), ChannelMessageReceived, Json(text))
  }

  /** What DeliverChannelMessageWithLock gives up on: no subscription, or a recorded id. */
  predicate Refused(r: Row, channel: string, message: nat) {
    channel !in r.subscriptions || HasId(r.history, DeliveryId(r, channel, message))
  }

  /** The statuses from which the stale-lock cleanup resumes. */
  predicate Resumable(s: Status) {
    s.Running? || s.WaitingForTimer?
  }

  /** Whether the step finds the lock as it needs it. */
  predicate ActsOn(r: Row, now: nat, step: Step) {
    && !step.Polling? && !step.Passing?
    && (if step.Cleaning? then Expired(r.lock, now) else Available(r.lock, step.worker, now))
  }

  predicate Acts(w: World, step: Step) {
    ActsOn(w.row, w.now, step)
  }

  /** Lock, record an answer, stop waiting, run, release. */
  function AnswerActions(worker: string, expires: nat, e: Event, channel: string): seq<Action> {
    [Acquire(worker, expires), Append(e), ClearWaiting(channel), SetStatus(Running), ReleaseBy(worker)]
  }

  /** What a cancellation does after its rollback. */
  function CancelEnd(status: Status, worker: string): seq<Action> {
    if Terminal(status) then [ReleaseBy(worker)] else [SetStatus(Cancelled), ReleaseBy(worker)]
  }

  /** The statements of the steps that run no workflow code. */
  function HandlerActions(r: Row, now: nat, step: Step): seq<Action> {
    if !ActsOn(r, now, step) then []
    else
      match step
      case Resuming(_, _, _, _) => []
      case Cleaning(_, _, _, _, _) => []
      case Firing(worker, expires, id) => [Acquire(worker, expires), DropTimer(id), Append(TimerEvent(id))]
      case Delivering(worker, expires, channel, message, text) =>
        if Refused(r, channel, message) then [Acquire(worker, expires), ReleaseBy(worker)]
        else AnswerActions(worker, expires, DeliveryEvent(r, channel, message, text), channel)
      case TimingOut(worker, expires, channel, id, text) =>
        AnswerActions(worker, expires, Event(id, MessageTimeout, Json(text)), channel)
      case Restarting(worker, expires) => [Acquire(worker, expires), SetStatus(Running), ReleaseBy(worker)]
      case Cancelling(worker, expires, seen, errors) =>
        if Terminal(seen) then []
        else [Acquire(worker, expires)] + (RollbackActions(r, errors) + CancelEnd(r.status, worker))
      case Polling => []
      case Passing(_) => []
  }

  function Actions(wf: Workflow, w: World, step: Step): seq<Action> {
    if step.Resuming? then
      if Acts(w, step) then ResumeActions(wf, w.row, step.worker, step.expires, step.env, step.fuel) else []
    else if step.Cleaning? then
      if !Acts(w, step) then []
      else
        [BreakLock] +
        if step.listed && Resumable(w.row.status)
        then ResumeActions(wf, w.row.(lock := Unlocked), step.worker, step.expires, step.env, step.fuel) else []
    else HandlerActions(w.row, w.now, step)
  }

  /** FindExpiredTimers: the stored second has been reached. */
  function DueTimers(r: Row, now: nat): map<string, nat> {
    map id | id in r.timers && r.timers[id] <= Seconds(now) :: r.timers[id]
  }

  /** FindExpiredChannelSubscriptions: the stored second has passed. */
  predicate IsLate(r: Row, now: nat, l: Late) {
    && l.channel in r.subscriptions && r.subscriptions[l.channel].Some?
    && var wait := r.subscriptions[l.channel].value;
       l.activityId == wait.activityId != "" && wait.timeoutAt.Some? && wait.timeoutAt.value < Seconds(now)
  }

  function LateWaits(r: Row, now: nat): set<Late> {
    set ch | ch in r.subscriptions && r.subscriptions[ch].Some?
             && IsLate(r, now, Late(ch, r.subscriptions[ch].value.activityId)) ::
      Late(ch, r.subscriptions[ch].value.activityId)
  }

  predicate Clears(actions: seq<Action>) {
    ClearHistory in actions
  }

  /** The world when a worker dies after the first `cut` of its actions. */
  function Left(w: World, actions: seq<Action>, cut: nat): World
    requires cut <= |actions|
  {
    var r := After(w.row, actions, cut);
    if Clears(actions[..cut]) then
      w.(row := r, due := map[], late := {}, base := r, iteration := w.iteration + 1)
    else w.(row := r)
  }

  /** How many of a step's actions take place; it completes if it does not die before. */
  function Clip(cut: nat, actions: seq<Action>): (k: nat)
    ensures k <= |actions|
    ensures cut <= |actions| ==> k == cut
  {
    if cut <= |actions| then cut else |actions|
  }

  /** The world after a step of which the first `cut` actions take place. */
  function Next(wf: Workflow, w: World, step: Step, cut: nat): World {
    if step.Polling? then
      var due, late := DueTimers(w.row, w.now), LateWaits(w.row, w.now);
      w.(due := w.due + due, late := w.late + late, found := w.found + due.Keys, foundLate := w.foundLate + late)
    else if step.Passing? then w.(now := w.now + step.duration)
    else Left(w, Actions(wf, w, step), Clip(cut, Actions(wf, w, step)))
  }

  predicate NoWaits(r: Row) {
    forall ch :: ch in r.subscriptions ==> r.subscriptions[ch].None?
  }

  /** Every wait is that of the call with which the workflow begins. */
  predicate FirstWaits(wf: Workflow, r: Row) {
    forall ch :: ch in r.subscriptions && r.subscriptions[ch].Some? ==>
      wf([]).WaitEvent? && wf([]).channel == ch && r.subscriptions[ch].value.activityId == IdOf(wf, [])
  }

  // ---- Runs ----

  /** A step, and how many of its actions take place. */
  datatype Move = Move(step: Step, cut: nat)

  function Reached(wf: Workflow, w: World, moves: seq<Move>): World
    decreases |moves|
  {
    if moves == [] then w else Reached(wf, Next(wf, w, moves[0].step, moves[0].cut), moves[1..])
  }

  /**
   * What the system can do: its handlers take up what some poll has found, however long ago, and
   * an execution reads the clock of its step.
   */
  predicate Possible(w: World, step: Step) {
    && (step.Firing? ==> step.id in w.found)
    && (step.TimingOut? ==> Late(step.channel, step.id) in w.foundLate)
    && ((step.Resuming? || step.Cleaning?) ==> step.env.now == w.now)
  }

  ghost predicate PossibleRun(wf: Workflow, w: World, moves: seq<Move>)
    decreases |moves|
  {
    moves == [] ||
    (Possible(w, moves[0].step) && PossibleRun(wf, Next(wf, w, moves[0].step, moves[0].cut), moves[1..]))
  }

  lemma MoveOn(wf: Workflow, w: World, m: Move, rest: seq<Move>)
    ensures Reached(wf, w, [m] + rest) == Reached(wf, Next(wf, w, m.step, m.cut), rest)
    ensures PossibleRun(wf, w, [m] + rest) <==>
            Possible(w, m.step) && PossibleRun(wf, Next(wf, w, m.step, m.cut), rest)
  {
    hide Next, Possible;
    assert ([m] + rest)[1..] == rest;
  }

  lemma StandStill(wf: Workflow, w: World)
    ensures Reached(wf, w, []) == w && PossibleRun(wf, w, [])
  {
  }

  /** Between the two deletions of a recurring instance, only the first call's wait is left over. */
  predicate CleanCut(wf: Workflow, r: Row, actions: seq<Action>, cut: nat)
    requires cut <= |actions|
  {
    ClearHistory in actions[..cut] && DropSubscriptions !in actions[..cut] ==> FirstWaits(wf, r)
  }

  /** A step of which that much takes place leaves no other wait between the two deletions. */
  predicate Clean(wf: Workflow, w: World, step: Step, cut: nat) {
    CleanCut(wf, w.row, Actions(wf, w, step), Clip(cut, Actions(wf, w, step)))
  }

  /** The handlers take up what a poll of this iteration has found. */
  predicate Current(w: World, step: Step) {
    (step.Firing? ==> step.id in w.due) && (step.TimingOut? ==> Late(step.channel, step.id) in w.late)
  }

  ghost predicate CurrentRun(wf: Workflow, w: World, moves: seq<Move>)
    decreases |moves|
  {
    moves == [] ||
    (&& Current(w, moves[0].step) && Clean(wf, w, moves[0].step, moves[0].cut)
     && CurrentRun(wf, Next(wf, w, moves[0].step, moves[0].cut), moves[1..]))
  }

  lemma ClipTwice(wf: Workflow, w: World, step: Step, cut: nat)
    ensures var k := Clip(cut, Actions(wf, w, step));
            Next(wf, w, step, k) == Next(wf, w, step, cut) && (Clean(wf, w, step, k) <==> Clean(wf, w, step, cut))
  {
    hide Actions;
  }

  // ---- Worlds left by lists of actions ----

  lemma LeftConcat(w: World, first: seq<Action>, second: seq<Action>, cut: nat)
    requires !Clears(first) && cut <= |first + second|
    ensures cut <= |first| ==> Left(w, first + second, cut) == w.(row := After(w.row, first, cut))
    ensures |first| <= cut ==>
              Left(w, first + second, cut) == Left(w.(row := ApplyAll(w.row, first)), second, cut - |first|)
  {
    hide ApplyAll, After;
    CutConcat(w.row, first, second, cut);
    if cut <= |first| {
      assert (first + second)[..cut] == first[..cut];
    } else {
      assert (first + second)[..cut] == first + second[..cut - |first|];
    }
  }

  /** Without a recur the world keeps its iteration. */
  lemma LeftStays(w: World, actions: seq<Action>, cut: nat)
    requires cut <= |actions| && !Clears(actions)
    ensures Left(w, actions, cut) == w.(row := After(w.row, actions, cut))
  {
  }

  lemma LeftNothing(w: World)
    requires w.row.tx.None?
    ensures Left(w, [], 0) == w
  {
  }

  lemma PlanClearsNothing(wf: Workflow, r: Row, env: Env, fuel: nat)
    ensures var actions := Exec(wf, [], CacheOf(r.history), env, fuel).actions;
            !Clears(actions) && DropSubscriptions !in actions
  {
    ExecShape(wf, [], CacheOf(r.history), env, fuel);
  }

  lemma RollbackClearsNothing(r: Row, errors: Compensation -> Option<string>)
    ensures !Clears(RollbackActions(r, errors))
  {
    PassShape(Lifo(r.compensations), ExecutedIds(r.history), errors);
  }

  lemma ConclusionClears(r: Row, end: End, worker: string, env: Env)
    requires !end.Recurs?
    ensures !Clears(Conclusion(r, end, worker, env))
  {
    hide RollbackActions;
    RollbackClearsNothing(r, env.compensate);
  }

  lemma CancelClearsNothing(r: Row, errors: Compensation -> Option<string>, worker: string)
    ensures forall a :: a in RollbackActions(r, errors) + CancelEnd(r.status, worker) ==> !a.ClearHistory?
  {
    PassShape(Lifo(r.compensations), ExecutedIds(r.history), errors);
  }

  lemma CancelShape(wf: Workflow, w: World, step: Step)
    requires step.Cancelling? && Acts(w, step) && !Terminal(step.seen)
    ensures Actions(wf, w, step) ==
            [Acquire(step.worker, step.expires)] + (RollbackActions(w.row, step.errors) + CancelEnd(w.row.status, step.worker))
  {
    hide RollbackActions;
  }

  // ---- The rows of a recur ----

  lemma ClearingWrites(r: Row)
    ensures var r1, r2 := Write(r, CopyToArchive), Write(Write(r, CopyToArchive), ClearHistory);
            && r1 == r.(archive := r.archive + r.history) && r2 == r1.(history := [])
            && Write(r2, DropTimers) == r2.(timers := map[])
            && Write(Write(r2, DropTimers), DropSubscriptions) == r2.(timers := map[], subscriptions := map[])
  {
  }

  lemma ClearingRows(r: Row, cut: nat)
    requires r.tx.None? && cut <= 4
    ensures After(r, CLEARING, cut) ==
            r.(archive := if cut == 0 then r.archive else r.archive + r.history,
               history := if cut < 2 then r.history else [],
               timers := if cut < 3 then r.timers else map[],
               subscriptions := if cut < 4 then r.subscriptions else map[])
    ensures ApplyAll(r, CLEARING) == After(r, CLEARING, 4)
  {
    hide ApplyAll, After, Write;
    ClearingWrites(r);
    WalkFour(r, CopyToArchive, ClearHistory, DropTimers, DropSubscriptions, cut);
    WalkFour(r, CopyToArchive, ClearHistory, DropTimers, DropSubscriptions, 4);
  }

  lemma BeginningRows(r: Row, input: string, worker: string, cut: nat)
    requires r.tx.None? && r.history == [] && cut <= 3
    ensures After(r, Beginning(input, worker), cut) ==
            r.(history := if cut < 1 then [] else [RecurEvent(input)],
               status := if cut < 2 then r.status else Recurred,
               lock := if cut < 3 then r.lock else Release(r.lock, worker))
  {
    hide ApplyAll, After;
    WalkThree(r, Append(RecurEvent(input)), SetStatus(Recurred), ReleaseBy(worker), cut);
    assert !HasId([], "recur");
  }

  /** The rows a recurring instance goes through. */
  lemma RecurRows(r: Row, input: string, worker: string, cut: nat)
    requires r.tx.None? && cut <= 7
    ensures var r' := After(r, RecurActions(input, worker), cut);
            && r'.tx.None? && r'.userRows == r.userRows && r'.compensations == r.compensations
            && r'.nextCompensation == r.nextCompensation
            && r'.archive == (if cut == 0 then r.archive else r.archive + r.history)
            && r'.history == (if cut < 2 then r.history else if cut < 5 then [] else [RecurEvent(input)])
            && r'.timers == (if cut < 3 then r.timers else map[])
            && r'.subscriptions == (if cut < 4 then r.subscriptions else map[])
            && r'.status == (if cut < 6 then r.status else Recurred)
            && r'.lock == (if cut < 7 then r.lock else Release(r.lock, worker))
            && r'.output == r.output
  {
    hide ApplyAll, After, Write;
    assert RecurActions(input, worker) == CLEARING + Beginning(input, worker);
    CutConcat(r, CLEARING, Beginning(input, worker), cut);
    ClearingRows(r, if cut < 4 then cut else 4);
    ClearingRows(r, 4);
    if 4 <= cut {
      BeginningRows(ApplyAll(r, CLEARING), input, worker, cut - 4);
    }
  }

  lemma NoOutcomes(r: Row)
    requires r.history == [] || exists input :: r.history == [RecurEvent(input)]
    ensures Outcomes(r.history) == []
  {
    if r.history != [] {
      assert r.history == [] + [r.history[0]];
      FilterSnoc([], r.history[0], IsOutcome);
    }
  }
}
