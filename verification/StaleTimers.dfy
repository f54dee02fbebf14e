/** When a sleep can be over early: exactly when its timer's id was found before it was registered. */
module StaleTimers {
  import opened Prelude
  import opened ActivityIds
  import opened Clock
  import opened Locks
  import opened Tables
  import opened Workflows
  import opened Replay
  import opened Saga
  import opened Machine
  import opened Integrity
  import opened Accounts
  import opened Reachable
  import opened Timers

  /** What the system can do from here, without a recur, records the sleep before its second. */
  ghost predicate EndsEarly(wf: Workflow, w: World, moves: seq<Move>, id: string, second: nat) {
    var w' := Reached(wf, w, moves);
    && PossibleRun(wf, w, moves) && w'.iteration == w.iteration
    && HasId(w'.row.history, id) && Seconds(w'.now) < second
  }

  /** The worker of the step holds the lock already, and enters it once more. */
  predicate Reenters(w: World, step: Step) {
    && !step.Polling? && !step.Passing? && !step.Cleaning?
    && w.row.lock.Locked? && w.row.lock.owner == step.worker && !Expired(w.row.lock, w.now)
  }

  ghost predicate NoReentry(wf: Workflow, w: World, moves: seq<Move>)
    decreases |moves|
  {
    moves == [] ||
    (!Reenters(w, moves[0].step) && NoReentry(wf, Next(wf, w, moves[0].step, moves[0].cut), moves[1..]))
  }

  /** The lock is free, or lapses before the second. */
  predicate Opens(l: Lock, second: nat) {
    l.Unlocked? || l.expires + 1 < second
  }

  /**
   * Take any state in which a sleep's timer stands, its second not reached and its end not
   * recorded.  Whatever the system can do next, it does not end the sleep early unless some poll
   * has found a timer of that id before - which must have been one of an earlier registration.
   * And where no worker enters a lock it holds, it can end the sleep early if and only if there
   * was such a poll, and the lock of the instance is free or lapses in time.
   */
  lemma CanEndEarlyExactly(wf: Workflow, w: World, id: string)
    requires WellNamed(wf) && SleepsAlone(wf) && SoundWorld(wf, w) && SleepId(id)
    requires id in w.row.timers && Seconds(w.now) < w.row.timers[id] && !HasId(w.row.history, id)
    ensures (exists moves :: EndsEarly(wf, w, moves, id, w.row.timers[id])) ==> id in w.found
    ensures (exists moves :: EndsEarly(wf, w, moves, id, w.row.timers[id]) && NoReentry(wf, w, moves)) <==>
            id in w.found && Opens(w.row.lock, w.row.timers[id])
  {
    hide WellNamed, SleepsAlone, SoundWorld, SleepId, HasId, Reached, PossibleRun, EndsEarly, NoReentry, Opens;
    var second := w.row.timers[id];
    if moves :| EndsEarly(wf, w, moves, id, second) {
      EarlyIsFound(wf, w, moves, id);
    }
    if moves :| EndsEarly(wf, w, moves, id, second) && NoReentry(wf, w, moves) {
      EarlyIsFound(wf, w, moves, id);
      ShutStays(wf, w, moves, id, second);
    }
    if id in w.found && Opens(w.row.lock, second) {
      SomeoneEndsEarly(wf, w, id);
    }
  }

  lemma EarlyIsFound(wf: Workflow, w: World, moves: seq<Move>, id: string)
    requires WellNamed(wf) && SleepsAlone(wf) && SoundWorld(wf, w) && SleepId(id)
    requires id in w.row.timers && Seconds(w.now) < w.row.timers[id] && !HasId(w.row.history, id)
    requires EndsEarly(wf, w, moves, id, w.row.timers[id])
    ensures id in w.found
  {
    hide WellNamed, SleepsAlone, SoundWorld, SleepId, HasId, Reached, PossibleRun;
    if id !in w.found {
      RunNotEarly(wf, w, moves, id, w.row.timers[id]);
    }
  }

  /** While a lock is held past the second, nobody but its owner gets at the instance before. */
  lemma StepShut(wf: Workflow, w: World, step: Step, cut: nat, second: nat)
    requires w.row.tx.None? && !Opens(w.row.lock, second) && !Reenters(w, step) && Seconds(w.now) < second
    ensures Next(wf, w, step, cut).row == w.row
  {
    hide ResumeActions, RollbackActions, HasId, ApplyAll, After;
    if !step.Polling? && !step.Passing? {
      NothingDone(wf, w, step);
      LeftNothing(w);
    }
  }

  lemma ShutStays(wf: Workflow, w: World, moves: seq<Move>, id: string, second: nat)
    requires SoundWorld(wf, w) && NoReentry(wf, w, moves) && EndsEarly(wf, w, moves, id, second)
    requires !HasId(w.row.history, id)
    ensures Opens(w.row.lock, second)
  {
    hide SoundWorld, HasId, Reached, PossibleRun, NoReentry, Opens;
    if !Opens(w.row.lock, second) {
      WorldOpen(wf, w);
      ShutRun(wf, w, moves, second);
    }
  }

  lemma {:induction false} ShutRun(wf: Workflow, w: World, moves: seq<Move>, second: nat)
    requires w.row.tx.None? && !Opens(w.row.lock, second) && NoReentry(wf, w, moves)
    requires Seconds(Reached(wf, w, moves).now) < second
    ensures Reached(wf, w, moves).row == w.row
    decreases |moves|
  {
    hide Next, Opens, Reenters;
    if moves != [] {
      var next := Next(wf, w, moves[0].step, moves[0].cut);
      RunGrows(wf, w, moves);
      SecondsMonotone(w.now, Reached(wf, w, moves).now);
      StepShut(wf, w, moves[0].step, moves[0].cut, second);
      ShutRun(wf, next, moves[1..], second);
    }
  }

  /** A worker that does not hold the lock. */
  function Stranger(l: Lock): string {
    if l.Locked? && l.owner == "v" then "u" else "v"
  }

  lemma SomeoneEndsEarly(wf: Workflow, w: World, id: string)
    requires SoundWorld(wf, w) && id in w.found && id in w.row.timers && Seconds(w.now) < w.row.timers[id]
    requires Opens(w.row.lock, w.row.timers[id])
    ensures exists moves :: EndsEarly(wf, w, moves, id, w.row.timers[id]) && NoReentry(wf, w, moves)
  {
    hide SoundWorld, EndsEarly, NoReentry, Next, PossibleRun, Reached;
    var second := w.row.timers[id];
    if w.row.lock.Unlocked? || Expired(w.row.lock, w.now) {
      FiringEndsEarly(wf, w, id);
      assert NoReentry(wf, w, [Move(Firing(Stranger(w.row.lock), 0, id), 3)]);
    } else {
      var d := (w.row.lock.expires + 1) * SECOND - w.now;
      SecondsBounds(w.now);
      assert (Seconds(w.now) + 1) * SECOND <= (w.row.lock.expires + 1) * SECOND;
      var pass := Move(Passing(d), 0);
      var later := Next(wf, w, pass.step, 0);
      TimePasses(wf, w, d);
      assert later == w.(now := (w.row.lock.expires + 1) * SECOND);
      StaysSound(wf, w, later);
      FiringEndsEarly(wf, later, id);
      var fire := Move(Firing(Stranger(w.row.lock), 0, id), 3);
      PassedFirst(wf, w, pass, fire, id, second);
    }
  }

  lemma StaysSound(wf: Workflow, w: World, later: World)
    requires SoundWorld(wf, w) && later == w.(now := later.now)
    ensures SoundWorld(wf, later)
  {
  }

  /** Time passes first, which enters no lock. */
  lemma PassedFirst(wf: Workflow, w: World, pass: Move, fire: Move, id: string, second: nat)
    requires pass.step.Passing? && Next(wf, w, pass.step, pass.cut).iteration == w.iteration
    requires EndsEarly(wf, Next(wf, w, pass.step, pass.cut), [fire], id, second)
    requires NoReentry(wf, Next(wf, w, pass.step, pass.cut), [fire])
    ensures EndsEarly(wf, w, [pass] + [fire], id, second) && NoReentry(wf, w, [pass] + [fire])
  {
    hide Next, Reached, PossibleRun, HasId;
    MoveOn(wf, w, pass, [fire]);
    assert ([pass] + [fire])[1..] == [fire];
  }

  lemma FiringEndsEarly(wf: Workflow, w: World, id: string)
    requires SoundWorld(wf, w) && id in w.found && id in w.row.timers && Seconds(w.now) < w.row.timers[id]
    requires w.row.lock.Unlocked? || Expired(w.row.lock, w.now)
    ensures var moves := [Move(Firing(Stranger(w.row.lock), 0, id), 3)];
            EndsEarly(wf, w, moves, id, w.row.timers[id]) && NoReentry(wf, w, moves)
  {
    hide ApplyAll, After, HasId, FormedWorld, Sound, Next;
    SoundIsClear(wf, w.base, w.row);
    var step := Firing(Stranger(w.row.lock), 0, id);
    FiringRow(wf, w, step);
    OneMove(wf, w, Move(step, 3));
    assert [Move(step, 3)][1..] == [];
  }

  lemma OneMove(wf: Workflow, w: World, m: Move)
    ensures Reached(wf, w, [m]) == Next(wf, w, m.step, m.cut)
    ensures PossibleRun(wf, w, [m]) <==> Possible(w, m.step)
  {
    hide Next, Possible;
    assert [m][1..] == [];
  }

  lemma FiringRow(wf: Workflow, w: World, step: Step)
    requires w.row.tx.None? && step.Firing? && Acts(w, step)
    ensures Next(wf, w, step, 3) ==
            w.(row := w.row.(lock := Locked(step.worker, step.expires), timers := w.row.timers - {step.id},
                             history := Appended(w.row.history, TimerEvent(step.id))))
    ensures HasId(Next(wf, w, step, 3).row.history, step.id)
  {
    hide ApplyAll, After, HasId, Appended;
    var all := [Acquire(step.worker, step.expires), DropTimer(step.id), Append(TimerEvent(step.id))];
    WalkThree(w.row, all[0], all[1], all[2], 3);
    LeftStays(w, all, 3);
    assert HasId(Appended(w.row.history, TimerEvent(step.id)), step.id);
  }

  // ---- A run in which it happens ----

  /** Workflow code that sleeps, and recurs. */
  function Napping(d: nat): Workflow {
    (seen: seq<Outcome>) => if |seen| == 0 then Sleep(d) else Recur("")
  }

  const NAP: string := Render("sleep", 1)

  lemma NapsAgain(d: nat)
    ensures IdOf(Napping(d), []) == NAP && NAP != "recur"
  {
    RenderHasColon("sleep", 1);
    assert ':' !in "recur";
  }

  lemma NappingActions(d: nat, r: Row, env: Env)
    requires NAP !in CacheOf(r.history)
    ensures ResumeActions(Napping(d), r, "w", 0, env, 2) ==
            [Acquire("w", 0), SetStatus(Running)] +
            [PutTimer(NAP, Seconds(env.now + d)), SetStatus(WaitingForTimer), ReleaseBy("w")]
  {
    hide ApplyAll, CacheOf, Render;
    NapsAgain(d);
    var plan := Exec(Napping(d), [], CacheOf(r.history), env, 2);
    assert plan == Plan([], SleepsUntil(NAP, env.now + d));
    var last := [PutTimer(NAP, Seconds(env.now + d)), SetStatus(WaitingForTimer), ReleaseBy("w")];
    assert [] + last == last;
  }

  /** An execution at the sleep: a timer row, and suspended. */
  lemma Naps(d: nat, w: World, env: Env)
    requires w.row.tx.None? && Available(w.row.lock, "w", w.now) && NAP !in CacheOf(w.row.history)
    ensures Next(Napping(d), w, Resuming("w", 0, env, 2), 5) ==
            w.(row := w.row.(lock := Unlocked, status := WaitingForTimer,
                             timers := if NAP in w.row.timers then w.row.timers
                                       else w.row.timers[NAP := Seconds(env.now + d)]))
  {
    hide ApplyAll, After, CacheOf, Render, ResumeActions;
    NappingActions(d, w.row, env);
    var first, last := [Acquire("w", 0), SetStatus(Running)],
      [PutTimer(NAP, Seconds(env.now + d)), SetStatus(WaitingForTimer), ReleaseBy("w")];
    WalkTwo(w.row, first[0], first[1], 2);
    WalkThree(Started(w.row, "w", 0), last[0], last[1], last[2], 3);
    CutConcat(w.row, first, last, 5);
    assert !Clears(first + last);
    LeftStays(w, first + last, 5);
  }

  lemma WakingActions(d: nat, r: Row, env: Env)
    requires r.history == [TimerEvent(NAP)]
    ensures ResumeActions(Napping(d), r, "w", 0, env, 2) ==
            [Acquire("w", 0), SetStatus(Running), See(NAP, Ok(""))] + RecurActions("", "w")
  {
    hide ApplyAll, CacheOf, Render, Exec, RecurActions;
    NapCache();
    NapPlan(d, CacheOf(r.history), env);
    assert [Acquire("w", 0), SetStatus(Running)] + ([See(NAP, Ok(""))] + RecurActions("", "w")) ==
           [Acquire("w", 0), SetStatus(Running), See(NAP, Ok(""))] + RecurActions("", "w");
  }

  /** An execution after the sleep: a new iteration. */
  lemma WakesUp(d: nat, w: World, env: Env)
    requires w.row.tx.None? && Available(w.row.lock, "w", w.now) && w.row.history == [TimerEvent(NAP)]
    requires w.row.timers == map[]
    ensures var w' := Next(Napping(d), w, Resuming("w", 0, env, 2), 10);
            && w'.row.history == [RecurEvent("")] && w'.row.timers == map[] && w'.row.tx.None?
            && w'.row.lock == Unlocked && w'.iteration == w.iteration + 1 && w'.found == w.found && w'.now == w.now
  {
    hide ApplyAll, After, Render, ResumeActions, Left;
    WakingActions(d, w.row, env);
    var first, started := [Acquire("w", 0), SetStatus(Running), See(NAP, Ok(""))], Started(w.row, "w", 0);
    PrefixOfThree(w.row, first[0], first[1], first[2], 3);
    assert ApplyAll(w.row, first) == started;
    LeftConcat(w, first, RecurActions("", "w"), 10);
    RecurredWorld(w.(row := started));
  }

  lemma RecurredWorld(w: World)
    requires w.row.tx.None? && w.row.lock == Locked("w", 0)
    ensures var w' := Left(w, RecurActions("", "w"), 7);
            && w'.row.history == [RecurEvent("")] && w'.row.timers == map[] && w'.row.tx.None?
            && w'.row.lock == Unlocked && w'.iteration == w.iteration + 1 && w'.found == w.found && w'.now == w.now
  {
    hide ApplyAll, After;
    RecurRows(w.row, "", "w", 7);
    assert RecurActions("", "w")[..7][1] == ClearHistory;
  }

  lemma NapCache()
    ensures CacheOf([TimerEvent(NAP)]) == map[NAP := Ok("")]
    ensures CacheOf([RecurEvent("")]) == map["recur" := Ok("")]
  {
    assert [TimerEvent(NAP)] == [] + [TimerEvent(NAP)] && [RecurEvent("")] == [] + [RecurEvent("")];
    CacheSnoc([], TimerEvent(NAP));
    CacheSnoc([], RecurEvent(""));
  }

  lemma NapPlan(d: nat, cache: map<string, Outcome>, env: Env)
    requires cache == map[NAP := Ok("")]
    ensures Exec(Napping(d), [], cache, env, 2) == Plan([See(NAP, Ok(""))], End.Recurs(""))
  {
    hide Render;
    NapsAgain(d);
    assert Exec(Napping(d), [] + [Ok("")], cache, env, 1) == Plan([], End.Recurs(""));
  }

  lemma Restarts(wf: Workflow, w: World)
    requires w.row.tx.None? && Available(w.row.lock, "w", w.now)
    ensures Next(wf, w, Restarting("w", 0), 3) == w.(row := w.row.(lock := Unlocked, status := Running))
  {
    hide ApplyAll, After;
    var all := [Acquire("w", 0), SetStatus(Running), ReleaseBy("w")];
    WalkThree(w.row, all[0], all[1], all[2], 3);
    LeftStays(w, all, 3);
  }

  /** The timer fires, the workflow recurs, is restarted and sleeps again. */
  function SecondNap(d: nat, env: Env): seq<Move> {
    [Move(Firing("w", 0, NAP), 3)] + ([Move(Resuming("w", 0, env.(now := d), 2), 10)] +
    ([Move(Restarting("w", 0), 3)] + ([Move(Resuming("w", 0, env.(now := d), 2), 5)] + [])))
  }

  /** Before that: it sleeps, and the poll finds its timer. */
  function TwoNaps(d: nat, env: Env): seq<Move> {
    [Move(Resuming("w", 0, env.(now := 0), 2), 5)] + ([Move(Passing(d), 0)] + ([Move(Polling, 0)] + SecondNap(d, env)))
  }

  lemma SecondNapRuns(d: nat, w: World, env: Env)
    requires w.row.tx.None? && w.row.lock.Unlocked? && w.now == d && NAP in w.found
    requires w.row.history == [] && w.row.timers.Keys == {NAP}
    ensures var w' := Reached(Napping(d), w, SecondNap(d, env));
            && PossibleRun(Napping(d), w, SecondNap(d, env))
            && w'.iteration == w.iteration + 1 && w'.now == d && NAP in w'.found
            && w'.row.history == [RecurEvent("")] && w'.row.timers == map[NAP := Seconds(d + d)]
            && w'.row.lock.Unlocked?
  {
    hide Next, Reached, PossibleRun, Render;
    var wf, now := Napping(d), env.(now := d);
    NapCache();
    NapsAgain(d);
    var fire, wake, restart, nap :=
      Move(Firing("w", 0, NAP), 3), Move(Resuming("w", 0, now, 2), 10), Move(Restarting("w", 0), 3),
      Move(Resuming("w", 0, now, 2), 5);
    FiringRow(wf, w, fire.step);
    FirstRecord();
    var fired := Next(wf, w, fire.step, fire.cut);
    assert fired.row.timers == map[];
    WakesUp(d, fired, now);
    var awake := Next(wf, fired, wake.step, wake.cut);
    Restarts(wf, awake);
    var running := Next(wf, awake, restart.step, restart.cut);
    Naps(d, running, now);
    var asleep := Next(wf, running, nap.step, nap.cut);
    MoveOn(wf, w, fire, [wake] + ([restart] + ([nap] + [])));
    MoveOn(wf, fired, wake, [restart] + ([nap] + []));
    MoveOn(wf, awake, restart, [nap] + []);
    MoveOn(wf, running, nap, []);
    StandStill(wf, asleep);
  }

  lemma FirstRecord()
    ensures Appended([], TimerEvent(NAP)) == [TimerEvent(NAP)]
  {
    assert !HasId([], NAP);
  }

  lemma PollFinds(wf: Workflow, w: World)
    requires NAP in w.row.timers && w.row.timers[NAP] <= Seconds(w.now)
    ensures var w' := Next(wf, w, Polling, 0);
            w'.row == w.row && w'.now == w.now && w'.iteration == w.iteration && NAP in w'.found
  {
    hide Render;
  }

  lemma TimePasses(wf: Workflow, w: World, d: nat)
    ensures Next(wf, w, Passing(d), 0) == w.(now := w.now + d)
  {
  }

  /**
   * A run from a new instance on: the workflow sleeps, a poll finds its timer, the timer fires, the
   * workflow recurs and sleeps again, under the same id.  Another worker that still has the timer on
   * its list then ends the new sleep at once.
   */
  lemma StaleTimerEndsSleep(d: nat, env: Env)
    requires SECOND <= d
    ensures var w := Reached(Napping(d), NEW, TwoNaps(d, env));
            && PossibleRun(Napping(d), NEW, TwoNaps(d, env)) && w.now == d && w.iteration == 1
            && w.row.timers == map[NAP := Seconds(d + d)] && !HasId(w.row.history, NAP)
            && EndsEarly(Napping(d), w, [Move(Firing("v", 0, NAP), 3)], NAP, Seconds(d + d))
  {
    hide Next, Reached, PossibleRun, Render, HasId, EndsEarly;
    var wf, now := Napping(d), env.(now := 0);
    var nap, pass, poll := Move(Resuming("w", 0, now, 2), 5), Move(Passing(d), 0), Move(Polling, 0);
    Naps(d, NEW, now);
    var asleep := Next(wf, NEW, nap.step, nap.cut);
    TimePasses(wf, asleep, d);
    var late := Next(wf, asleep, pass.step, pass.cut);
    PollFinds(wf, late);
    var found := Next(wf, late, poll.step, poll.cut);
    SecondNapRuns(d, found, env);
    MoveOn(wf, NEW, nap, [pass] + ([poll] + SecondNap(d, env)));
    MoveOn(wf, asleep, pass, [poll] + SecondNap(d, env));
    MoveOn(wf, late, poll, SecondNap(d, env));
    var w := Reached(wf, NEW, TwoNaps(d, env));
    Twice(d);
    NapsAgain(d);
    NotRecorded();
    NapIsSound(d, env, w);
    FiringEndsEarly(wf, w, NAP);
  }

  lemma Twice(d: nat)
    requires SECOND <= d
    ensures Seconds(d) < Seconds(d + d)
  {
    SecondsBounds(d);
    SecondsBounds(d + d);
  }

  lemma NotRecorded()
    ensures !HasId([RecurEvent("")], NAP)
  {
    hide Render;
    NapsAgain(0);
  }

  lemma NapIsSound(d: nat, env: Env, w: World)
    requires PossibleRun(Napping(d), NEW, TwoNaps(d, env)) && w == Reached(Napping(d), NEW, TwoNaps(d, env))
    ensures SoundWorld(Napping(d), w)
  {
    hide Next, Reached, PossibleRun, SoundWorld, TwoNaps;
    NewIsSound(Napping(d));
    RunSound(Napping(d), NEW, TwoNaps(d, env));
  }
}
