/** What every possible run keeps: the forms of ids, and the account of every iteration. */
module Reachable {
  import opened Prelude
  import opened ActivityIds
  import opened Clock
  import opened Locks
  import opened Tables
  import opened Workflows
  import opened Replay
  import opened Saga
  import opened Machine
  import opened Integrity
  import opened Accounts

  // ---- Forms of ids ----

  ghost predicate SleepId(id: string) {
    exists n :: id == Render("sleep", n)
  }

  ghost predicate ReceiveId(channel: string, id: string) {
    exists n :: id == Render("receive_" + channel, n)
  }

  ghost predicate CallId(id: string) {
    exists name, n :: Unreserved(name) && id == Render(name, n)
  }

  /** A record, and if it can answer a call it has the id of one, or one that no call has. */
  ghost predicate Proper(e: Event) {
    && KeepsClear(e)
    && (Cacheable(e) ==> e.activityId == "recur" || Unclaimed(e.activityId) || CallId(e.activityId))
  }

  ghost predicate FormedAction(a: Action) {
    && (a.Append? ==> Proper(a.event))
    && (a.PutTimer? ==> SleepId(a.id))
    && (a.SetWaiting? ==> ReceiveId(a.channel, a.wait.activityId))
  }

  ghost predicate Formed(actions: seq<Action>) {
    forall a :: a in actions ==> FormedAction(a)
  }

  ghost predicate FormedRow(r: Row) {
    && (forall i :: 0 <= i < |r.history| ==> Proper(r.history[i]))
    && (forall id :: id in r.timers ==> SleepId(id))
    && (forall ch :: ch in r.subscriptions && r.subscriptions[ch].Some? ==>
          ReceiveId(ch, r.subscriptions[ch].value.activityId))
    && (r.tx.Some? ==> Formed(r.tx.value))
  }

  lemma WriteFormed(r: Row, a: Action)
    requires FormedRow(r) && FormedAction(a)
    ensures FormedRow(Write(r, a))
  {
    hide Proper, SleepId, ReceiveId, FormedAction;
    if a.Append? || a.PutTimer? || a.SetWaiting? {
      FormOf(a);
    }
  }

  lemma FormOf(a: Action)
    requires FormedAction(a)
    ensures a.Append? ==> Proper(a.event)
    ensures a.PutTimer? ==> SleepId(a.id)
    ensures a.SetWaiting? ==> ReceiveId(a.channel, a.wait.activityId)
  {
  }

  lemma {:induction false} WritesFormed(r: Row, actions: seq<Action>)
    requires FormedRow(r) && Formed(actions)
    ensures FormedRow(WriteAll(r, actions))
  {
    hide Write, FormedRow, FormedAction;
    if actions != [] {
      WritesFormed(r, actions[..|actions| - 1]);
      WriteFormed(WriteAll(r, actions[..|actions| - 1]), actions[|actions| - 1]);
    }
  }

  lemma ApplyFormed(r: Row, a: Action)
    requires FormedRow(r) && FormedAction(a)
    ensures FormedRow(Apply(r, a))
  {
    hide Write, WriteAll, Proper, SleepId, ReceiveId, FormedAction;
    WriteFormed(r, a);
    if r.tx.Some? {
      WritesFormed(r.(tx := None), r.tx.value);
    }
  }

  lemma {:induction false} ActionsFormed(r: Row, actions: seq<Action>)
    requires FormedRow(r) && Formed(actions)
    ensures FormedRow(ApplyAll(r, actions))
  {
    hide Apply, FormedRow, FormedAction;
    if actions != [] {
      ActionsFormed(r, actions[..|actions| - 1]);
      ApplyFormed(ApplyAll(r, actions[..|actions| - 1]), actions[|actions| - 1]);
    }
  }

  lemma CallIdOf(wf: Workflow, seen: seq<Outcome>)
    requires WellNamed(wf) && !Ends(wf(seen))
    ensures CallId(IdOf(wf, seen))
    ensures wf(seen).Sleep? ==> SleepId(IdOf(wf, seen))
    ensures wf(seen).WaitEvent? ==> ReceiveId(wf(seen).channel, IdOf(wf, seen))
  {
    hide Render, Unreserved;
    CallIsUnreserved(wf, seen);
  }

  lemma TurnFormed(wf: Workflow, seen: seq<Outcome>, cache: map<string, Outcome>, env: Env)
    requires WellNamed(wf) && !Ends(wf(seen))
    ensures Formed(TurnOf(wf, seen, cache, env).actions)
  {
    hide IdOf, CallId, SleepId, ReceiveId, WellNamed, Perform;
    CallIdOf(wf, seen);
    var c, id := wf(seen), IdOf(wf, seen);
    if c.Activity? || (c.WaitEvent? && env.pending(id).Some?) {
      PerformFormed(c, id, env);
    }
  }

  lemma PerformFormed(c: Call, id: string, env: Env)
    requires (c.Activity? || (c.WaitEvent? && env.pending(id).Some?)) && CallId(id)
    ensures Formed(Perform(c, id, env))
  {
    hide CallId;
  }

  /** What an execution causes, and the id with which it suspends. */
  lemma {:induction false} ExecFormed(
    wf: Workflow, seen: seq<Outcome>, cache: map<string, Outcome>, env: Env, fuel: nat)
    requires WellNamed(wf)
    ensures var plan := Exec(wf, seen, cache, env, fuel);
            && Formed(plan.actions)
            && (plan.end.SleepsUntil? ==> SleepId(plan.end.id))
            && (plan.end.WaitsFor? ==> ReceiveId(plan.end.channel, plan.end.id))
    decreases fuel
  {
    hide TurnOf, Exec, IdOf, Suspends, CallId, SleepId, ReceiveId, WellNamed, FormedAction;
    ExecStep(wf, seen, cache, env, fuel);
    if fuel > 0 && !Ends(wf(seen)) {
      var turn := TurnOf(wf, seen, cache, env);
      TurnFormed(wf, seen, cache, env);
      CallIdOf(wf, seen);
      if turn.outcome.Some? {
        ExecFormed(wf, seen + [turn.outcome.value], turn.cache, env, fuel - 1);
      }
    }
  }

  lemma RollbackFormed(r: Row, errors: Compensation -> Option<string>)
    ensures Formed(RollbackActions(r, errors))
  {
    hide CallId;
    PassShape(Lifo(r.compensations), ExecutedIds(r.history), errors);
  }

  lemma ConclusionFormed(r: Row, end: End, worker: string, env: Env)
    requires end.SleepsUntil? ==> SleepId(end.id)
    requires end.WaitsFor? ==> ReceiveId(end.channel, end.id)
    ensures Formed(Conclusion(r, end, worker, env))
  {
    hide RollbackActions, SleepId, ReceiveId, CallId;
    RollbackFormed(r, env.compensate);
  }

  lemma ResumeFormed(wf: Workflow, r: Row, worker: string, expires: nat, env: Env, fuel: nat)
    requires WellNamed(wf)
    ensures Formed(ResumeActions(wf, r, worker, expires, env, fuel))
  {
    hide Exec, Conclusion, ApplyAll, SleepId, ReceiveId, CallId, WellNamed, Proper;
    var started := Started(r, worker, expires);
    var plan := Exec(wf, [], CacheOf(started.history), env, fuel);
    ExecFormed(wf, [], CacheOf(started.history), env, fuel);
    ConclusionFormed(ApplyAll(started, plan.actions), plan.end, worker, env);
  }

  /** Everything found has the form of what polls find. */
  ghost predicate FormedWorld(w: World) {
    && FormedRow(w.row)
    && (forall id :: id in w.found ==> SleepId(id))
    && (forall l :: l in w.foundLate ==> ReceiveId(l.channel, l.activityId))
  }

  lemma ReceiveIsCall(channel: string, id: string)
    requires ReceiveId(channel, id)
    ensures CallId(id)
  {
    assert ("receive_" + channel)[0] == 'r' && "channel:"[0] == 'c' && "compensation"[0] == 'c';
    assert Unreserved("receive_" + channel);
  }

  lemma CallIsOutcome(e: Event)
    requires CallId(e.activityId) && Cacheable(e)
    ensures IsOutcome(e) && e.activityId != ""
  {
    var name, n :| Unreserved(name) && e.activityId == Render(name, n);
    RenderHasColon(name, n);
    assert ':' !in "recur";
    UnreservedIsClaimed(name, n);
  }

  lemma SleepIsCall(id: string)
    requires SleepId(id)
    ensures CallId(id)
  {
    assert "sleep"[0] == 's' && "channel:"[0] == 'c' && "compensation"[0] == 'c';
    assert Unreserved("sleep");
  }

  lemma DeliveryFormed(r: Row, channel: string, message: nat, text: string)
    requires FormedRow(r) && channel in r.subscriptions
    ensures Proper(DeliveryEvent(r, channel, message, text))
  {
    hide CallId, ReceiveId;
    if r.subscriptions[channel].Some? {
      ReceiveIsCall(channel, r.subscriptions[channel].value.activityId);
    }
    assert Render("channel:" + channel, message) == "channel:" + (channel + ":" + Decimal(message));
  }

  lemma HandlerFormed(w: World, step: Step)
    requires FormedWorld(w) && Possible(w, step)
    ensures Formed(HandlerActions(w.row, w.now, step))
  {
    hide RollbackActions, HasId, CallId, SleepId, ReceiveId, Proper, FormedRow, DeliveryEvent, DeliveryId;
    match step
    case Firing(_, _, id) => SleepIsCall(id); TimerProper(id);
    case Delivering(_, _, channel, message, text) =>
      if !Refused(w.row, channel, message) {
        DeliveryFormed(w.row, channel, message, text);
      }
    case TimingOut(_, _, channel, id, text) =>
      assert ReceiveId(Late(channel, id).channel, Late(channel, id).activityId);
      ReceiveIsCall(channel, id);
      TimeoutProper(id, text);
    case Cancelling(_, _, _, errors) => RollbackFormed(w.row, errors);
    case Resuming(_, _, _, _) =>
    case Cleaning(_, _, _, _, _) =>
    case Restarting(_, _) =>
    case Polling =>
    case Passing(_) =>
  }

  lemma TimerProper(id: string)
    requires CallId(id)
    ensures Proper(TimerEvent(id))
  {
  }

  lemma TimeoutProper(id: string, text: string)
    requires CallId(id)
    ensures Proper(Event(id, MessageTimeout, Json(text)))
  {
  }

  lemma ActionsAreFormed(wf: Workflow, w: World, step: Step)
    requires WellNamed(wf) && FormedWorld(w) && Possible(w, step)
    ensures Formed(Actions(wf, w, step))
  {
    hide ResumeActions, HandlerActions, FormedRow, SleepId, ReceiveId, Proper, WellNamed;
    if step.Resuming? {
      ResumeFormed(wf, w.row, step.worker, step.expires, step.env, step.fuel);
    } else if step.Cleaning? {
      ResumeFormed(wf, w.row.(lock := Unlocked), step.worker, step.expires, step.env, step.fuel);
    } else {
      HandlerFormed(w, step);
    }
  }

  lemma SomeFormed(actions: seq<Action>, k: nat)
    requires Formed(actions) && k <= |actions|
    ensures Formed(actions[..k])
  {
  }

  lemma PollFormed(w: World)
    requires FormedWorld(w)
    ensures FormedWorld(Next(NOTHING, w, Polling, 0))
  {
    hide SleepId, ReceiveId, Proper;
  }

  /** Some workflow, for steps that run none. */
  const NOTHING: Workflow := seen => Return("")

  lemma StepFormed(wf: Workflow, w: World, step: Step, cut: nat)
    requires WellNamed(wf) && FormedWorld(w) && Possible(w, step)
    ensures FormedWorld(Next(wf, w, step, cut))
  {
    hide Actions, FormedRow, FormedAction, SleepId, ReceiveId, WellNamed, ApplyAll;
    var all := Actions(wf, w, step);
    if step.Polling? {
      PollFormed(w);
    } else if !step.Passing? {
      ActionsAreFormed(wf, w, step);
      SomeFormed(all, Clip(cut, all));
      ActionsFormed(w.row, all[..Clip(cut, all)]);
      CrashFormed(ApplyAll(w.row, all[..Clip(cut, all)]));
    }
  }

  lemma CrashFormed(r: Row)
    requires FormedRow(r)
    ensures FormedRow(Crash(r))
  {
  }

  // ---- The account of every iteration ----

  /** A statement that is no part of an activity. */
  ghost predicate Aside(wf: Workflow, a: Action) {
    && Direct(a) && !a.UserWrite? && !a.AddCompensation? && !a.ClearHistory?
    && (a.Append? ==>
          KeepsClear(a.event) && (a.event.kind.ActivityCompleted? ==> !AlwaysTransactional(wf, a.event.activityId)))
  }

  ghost predicate AllAside(wf: Workflow, actions: seq<Action>) {
    forall a :: a in actions ==> Aside(wf, a)
  }

  lemma AsideSound(wf: Workflow, base: Row, r: Row, a: Action)
    requires Sound(wf, base, r) && Aside(wf, a)
    ensures Sound(wf, base, Apply(r, a)) && Apply(r, a) == Write(r, a)
  {
    hide KeepsClear, AlwaysTransactional, Books, HasId;
    if a.Append? && !HasId(r.history, a.event.activityId) {
      BooksAside(wf, r.history, a.event, r.userRows[|base.userRows|..], r.compensations[|base.compensations|..]);
      AppendedNew(r.history, a.event);
      IntactSnoc(r, Write(r, a), a.event);
    } else {
      AsideWrites(wf, r, a);
      SoundTransfers(wf, base, r, Write(r, a));
    }
  }

  lemma AppendedNew(history: seq<Event>, e: Event)
    requires !HasId(history, e.activityId)
    ensures Appended(history, e) == history + [e]
  {
  }

  lemma AsideWrites(wf: Workflow, r: Row, a: Action)
    requires Aside(wf, a) && (a.Append? ==> HasId(r.history, a.event.activityId))
    ensures var r' := Write(r, a);
            && r'.tx == r.tx && r'.history == r.history && r'.userRows == r.userRows && r'.compensations == r.compensations
  {
    hide AlwaysTransactional;
  }

  lemma {:induction false} AsidesSound(wf: Workflow, base: Row, r: Row, actions: seq<Action>)
    requires Sound(wf, base, r) && AllAside(wf, actions)
    ensures Sound(wf, base, ApplyAll(r, actions))
  {
    hide Apply, Sound, Aside;
    if actions != [] {
      AsidesSound(wf, base, r, actions[..|actions| - 1]);
      AsideSound(wf, base, ApplyAll(r, actions[..|actions| - 1]), actions[|actions| - 1]);
    }
  }

  lemma AsidesCut(wf: Workflow, base: Row, r: Row, actions: seq<Action>, cut: nat)
    requires Sound(wf, base, r) && AllAside(wf, actions) && cut <= |actions|
    ensures Sound(wf, base, After(r, actions, cut)) && Sound(wf, base, ApplyAll(r, actions))
  {
    hide ApplyAll, Sound, Aside;
    AsidesSound(wf, base, r, actions);
    assert AllAside(wf, actions[..cut]);
    AsidesSound(wf, base, r, actions[..cut]);
    SoundCrash(wf, base, ApplyAll(r, actions[..cut]));
  }

  lemma SoundCrash(wf: Workflow, base: Row, r: Row)
    requires Sound(wf, base, r)
    ensures Crash(r) == r
  {
  }

  lemma SleepIsNoActivity(wf: Workflow, id: string)
    requires SleepId(id)
    ensures !AlwaysTransactional(wf, id)
  {
    hide Render;
    var n :| id == Render("sleep", n);
    if name, m :| id == Render(name, m) && !EngineName(name) {
      RenderInjective("sleep", n, name, m);
    }
  }

  lemma RecurIsNoActivity(wf: Workflow)
    ensures !AlwaysTransactional(wf, "recur")
  {
    assert ':' !in "recur";
    if name, m :| "recur" == Render(name, m) {
      RenderHasColon(name, m);
    }
  }

  lemma RollbackAside(wf: Workflow, r: Row, errors: Compensation -> Option<string>)
    ensures AllAside(wf, RollbackActions(r, errors))
  {
    hide AlwaysTransactional;
    PassShape(Lifo(r.compensations), ExecutedIds(r.history), errors);
  }

  lemma HandlerAside(wf: Workflow, w: World, step: Step)
    requires FormedWorld(w) && Possible(w, step)
    ensures AllAside(wf, HandlerActions(w.row, w.now, step))
  {
    hide RollbackActions, HasId, AlwaysTransactional, SleepId, ReceiveId, FormedRow, AnswerActions, DeliveryId;
    if step.Firing? {
      SleepIsNoActivity(wf, step.id);
    } else if step.Cancelling? {
      RollbackAside(wf, w.row, step.errors);
    } else if step.TimingOut? {
      AnswerAside(wf, step.worker, step.expires, Event(step.id, MessageTimeout, Json(step.text)), step.channel);
    } else if step.Delivering? && !Refused(w.row, step.channel, step.message) {
      AnswerAside(wf, step.worker, step.expires, DeliveryEvent(w.row, step.channel, step.message, step.text), step.channel);
    }
  }

  lemma AnswerAside(wf: Workflow, worker: string, expires: nat, e: Event, channel: string)
    requires e.kind.MessageTimeout? || e.kind.ChannelMessageReceived?
    ensures AllAside(wf, AnswerActions(worker, expires, e, channel))
  {
    hide AlwaysTransactional;
  }

  ghost predicate SoundWorld(wf: Workflow, w: World) {
    FormedWorld(w) && Sound(wf, w.base, w.row)
  }

  lemma WorldOpen(wf: Workflow, w: World)
    requires SoundWorld(wf, w)
    ensures w.row.tx.None?
  {
    SoundIsClear(wf, w.base, w.row);
  }

  /** A new iteration begins with clean books. */
  lemma IterationSound(wf: Workflow, r: Row)
    requires r.tx.None? && (r.history == [] || exists input :: r.history == [RecurEvent(input)])
    ensures Sound(wf, r, r)
  {
    hide AlwaysTransactional, AlwaysCompensated;
    RecurIsNoActivity(wf);
  }

  lemma ConclusionAside(wf: Workflow, r: Row, end: End, worker: string, env: Env)
    requires !end.Recurs?
    ensures AllAside(wf, Conclusion(r, end, worker, env))
  {
    hide RollbackActions, AlwaysTransactional;
    RollbackAside(wf, r, env.compensate);
  }

  lemma LeftSoundAside(wf: Workflow, w: World, actions: seq<Action>, cut: nat)
    requires Sound(wf, w.base, w.row) && AllAside(wf, actions) && cut <= |actions|
    ensures var w' := Left(w, actions, cut); Sound(wf, w'.base, w'.row)
    ensures Left(w, actions, cut) == w.(row := After(w.row, actions, cut))
    ensures Sound(wf, w.base, ApplyAll(w.row, actions)) && !Clears(actions)
  {
    hide Sound, After, ApplyAll;
    AsidesCut(wf, w.base, w.row, actions, cut);
    AsideClears(wf, actions);
    LeftStays(w, actions, cut);
  }

  lemma AsideClears(wf: Workflow, actions: seq<Action>)
    requires AllAside(wf, actions)
    ensures !Clears(actions)
  {
    hide AlwaysTransactional;
    assert ClearHistory in actions ==> Aside(wf, ClearHistory);
  }

  lemma RecurSound(wf: Workflow, w: World, input: string, worker: string, cut: nat)
    requires Sound(wf, w.base, w.row) && cut <= |RecurActions(input, worker)|
    ensures var w' := Left(w, RecurActions(input, worker), cut); Sound(wf, w'.base, w'.row)
  {
    hide Sound, After, ApplyAll;
    SoundIsClear(wf, w.base, w.row);
    RecurRows(w.row, input, worker, cut);
    var all := RecurActions(input, worker);
    if cut < 2 {
      assert cut == 1 ==> all[..1] == [all[0]];
      SoundTransfers(wf, w.base, w.row, After(w.row, all, cut));
    } else {
      assert all[..cut][1] == ClearHistory;
      IterationSound(wf, After(w.row, all, cut));
    }
  }

  lemma ExecutionSound(wf: Workflow, w: World, worker: string, env: Env, fuel: nat, cut: nat)
    requires WellNamed(wf) && Sound(wf, w.base, w.row)
    requires cut <= |ExecutionActions(wf, w.row, worker, env, fuel)|
    ensures var w' := Left(w, ExecutionActions(wf, w.row, worker, env, fuel), cut); Sound(wf, w'.base, w'.row)
  {
    hide WellNamed, Sound, After, ApplyAll, Conclusion, Left, Exec, CallsFresh, HasId, Covers;
    var plan := Exec(wf, [], CacheOf(w.row.history), env, fuel);
    var r' := ApplyAll(w.row, plan.actions);
    var second := Conclusion(r', plan.end, worker, env);
    SoundIsClear(wf, w.base, w.row);
    CacheCovers(w.row.history);
    ExecSound(wf, w.base, w.row, [], CacheOf(w.row.history), env, fuel, if cut <= |plan.actions| then cut else 0);
    PlanClearsNothing(wf, w.row, env, fuel);
    LeftConcat(w, plan.actions, second, cut);
    if |plan.actions| <= cut {
      if plan.end.Recurs? {
        RecurIsConclusion(r', plan.end, worker, env);
        RecurSound(wf, w.(row := r'), plan.end.input, worker, cut - |plan.actions|);
      } else {
        ConclusionAside(wf, r', plan.end, worker, env);
        LeftSoundAside(wf, w.(row := r'), second, cut - |plan.actions|);
      }
    }
  }

  lemma RecurIsConclusion(r: Row, end: End, worker: string, env: Env)
    requires end.Recurs?
    ensures Conclusion(r, end, worker, env) == RecurActions(end.input, worker)
  {
  }

  lemma ResumeSound(wf: Workflow, w: World, worker: string, expires: nat, env: Env, fuel: nat, cut: nat)
    requires WellNamed(wf) && Sound(wf, w.base, w.row)
    requires cut <= |ResumeActions(wf, w.row, worker, expires, env, fuel)|
    ensures var w' := Left(w, ResumeActions(wf, w.row, worker, expires, env, fuel), cut); Sound(wf, w'.base, w'.row)
  {
    hide WellNamed, Sound, After, ApplyAll, ExecutionActions, Left;
    var first := [Acquire(worker, expires), SetStatus(Running)];
    var started := Started(w.row, worker, expires);
    var second := ExecutionActions(wf, started, worker, env, fuel);
    SoundIsClear(wf, w.base, w.row);
    WalkTwo(w.row, first[0], first[1], 2);
    LeftSoundAside(wf, w, first, if cut <= 2 then cut else 2);
    LeftConcat(w, first, second, cut);
    if 2 <= cut {
      SoundTransfers(wf, w.base, w.row, started);
      ExecutionSound(wf, w.(row := started), worker, env, fuel, cut - 2);
    }
  }

  lemma CleaningSound(wf: Workflow, w: World, step: Step, cut: nat)
    requires WellNamed(wf) && Sound(wf, w.base, w.row) && step.Cleaning? && Acts(w, step)
    requires cut <= |Actions(wf, w, step)|
    ensures var w' := Left(w, Actions(wf, w, step), cut); Sound(wf, w'.base, w'.row)
  {
    hide WellNamed, Sound, After, ApplyAll, ResumeActions, Left;
    var r' := w.row.(lock := Unlocked);
    var second := if step.listed && Resumable(w.row.status)
      then ResumeActions(wf, r', step.worker, step.expires, step.env, step.fuel) else [];
    SoundIsClear(wf, w.base, w.row);
    Walk(w.row, BreakLock, [], 0);
    assert [BreakLock] + [] == [BreakLock];
    ApplyNone(r');
    LeftSoundAside(wf, w, [BreakLock], if cut == 0 then 0 else 1);
    LeftConcat(w, [BreakLock], second, cut);
    SoundTransfers(wf, w.base, w.row, r');
    LeftNothing(w.(row := r'));
    if 1 <= cut && step.listed && Resumable(w.row.status) {
      ResumeSound(wf, w.(row := r'), step.worker, step.expires, step.env, step.fuel, cut - 1);
    }
  }

  /** Every possible step keeps forms and account, wherever it dies. */
  lemma StepSound(wf: Workflow, w: World, step: Step, cut: nat)
    requires WellNamed(wf) && SoundWorld(wf, w) && Possible(w, step)
    ensures SoundWorld(wf, Next(wf, w, step, cut))
  {
    hide WellNamed, Sound, After, ApplyAll, ResumeActions, HandlerActions, Left, FormedWorld;
    StepFormed(wf, w, step, cut);
    var all := Actions(wf, w, step);
    SoundIsClear(wf, w.base, w.row);
    if !step.Polling? && !step.Passing? {
      if !Acts(w, step) {
        NothingDone(wf, w, step);
        LeftNothing(w);
      } else if step.Resuming? {
        ResumeSound(wf, w, step.worker, step.expires, step.env, step.fuel, Clip(cut, all));
      } else if step.Cleaning? {
        CleaningSound(wf, w, step, Clip(cut, all));
      } else {
        HandlerAside(wf, w, step);
        LeftSoundAside(wf, w, all, Clip(cut, all));
      }
    }
  }

  lemma NothingDone(wf: Workflow, w: World, step: Step)
    requires !Acts(w, step)
    ensures Actions(wf, w, step) == []
  {
  }

  lemma {:induction false} RunSound(wf: Workflow, w: World, moves: seq<Move>)
    requires WellNamed(wf) && SoundWorld(wf, w) && PossibleRun(wf, w, moves)
    ensures SoundWorld(wf, Reached(wf, w, moves))
    decreases |moves|
  {
    hide Next, SoundWorld, WellNamed, Possible;
    if moves != [] {
      StepSound(wf, w, moves[0].step, moves[0].cut);
      RunSound(wf, Next(wf, w, moves[0].step, moves[0].cut), moves[1..]);
    }
  }

  lemma NewIsSound(wf: Workflow)
    ensures SoundWorld(wf, NEW)
  {
    IterationSound(wf, FRESH);
  }
}
