/**
 * No lost wake-up: which states still have something that will run them again, the exact
 * moments at which a death loses it, and that a lost instance stays lost.
 */
module Wakeups {
  import opened Prelude
  import opened ActivityIds
  import opened Clock
  import opened Locks
  import opened Tables
  import opened Workflows
  import opened Replay
  import opened Saga
  import opened Machine
  import opened Integrity
  import opened Accounts
  import opened Reachable

  /** A wait that can still be answered: by a delivery, or by the timeout poll. */
  predicate Awake(r: Row, ch: string) {
    && ch in r.subscriptions && r.subscriptions[ch].Some?
    && var wait := r.subscriptions[ch].value;
       (!HasId(r.history, wait.activityId) || wait.timeoutAt.Some?)
  }

  ghost predicate Woken(r: Row) {
    exists ch :: Awake(r, ch)
  }

  /**
   * Something will run the instance again: the resumption task or the stale-lock cleanup if it
   * is running, the recur check, its timer, the cleanup while it is leased, or its wait.
   */
  ghost predicate WakeSource(r: Row) {
    match r.status
    case WaitingForTimer => r.timers != map[] || r.lock.Locked?
    case WaitingForMessage => Woken(r)
    case Running => true
    case Recurred => true
    case Completed => true
    case Failed => true
    case Cancelled => true
  }

  /** No channel but `ch` has a wait that can still be answered. */
  ghost predicate OnlyAwake(r: Row, ch: string) {
    forall other :: other != ch ==> !Awake(r, other)
  }

  predicate Untimed(r: Row, ch: string) {
    ch in r.subscriptions && r.subscriptions[ch].Some? && r.subscriptions[ch].value.timeoutAt.None?
  }

  /** A sleeping instance whose timer row is gone; only its lock still tells of it. */
  predicate OnlyLeased(r: Row) {
    r.status.WaitingForTimer? && r.timers == map[]
  }

  /** The moments at which the last wake source is lost. */
  ghost predicate Loses(w: World, step: Step, cut: nat) {
    && Acts(w, step)
    && match step
       // the lock is cleared, the instance not resumed: its owner died, or it was number 101
       case Cleaning(_, _, _, _, listed) => OnlyLeased(w.row) && (cut == 1 || (cut > 1 && !listed))
       case Delivering(_, _, ch, message, _) =>
         if Refused(w.row, ch, message) then
           // a delivery that gives up has taken over an expired lock, and clears it
           cut >= 2 && OnlyLeased(w.row)
         else
           // recorded, but the status not set running yet
           w.row.status.WaitingForMessage? && OnlyAwake(w.row, ch) &&
           ((cut == 2 && Untimed(w.row, ch)) || cut == 3)
       case TimingOut(_, _, ch, id, _) =>
         && w.row.status.WaitingForMessage? && OnlyAwake(w.row, ch)
         && ((cut == 2 && Untimed(w.row, ch) && w.row.subscriptions[ch].value.activityId == id
              && !HasId(w.row.history, id))
             || cut == 3)
       case Resuming(_, _, _, _) => false
       case Firing(_, _, _) => false
       case Restarting(_, _) => false
       case Cancelling(_, _, _, _) => false
       case Polling => false
       case Passing(_) => false
  }

  // ---- Executions ----

  lemma LockedWakes(r: Row, r': Row)
    requires WakeSource(r) && r'.lock.Locked? && r'.status == r.status
    requires r'.history == r.history && r'.subscriptions == r.subscriptions
    ensures WakeSource(r')
  {
    if r.status.WaitingForMessage? {
      var ch :| Awake(r, ch);
      assert Awake(r', ch);
    }
  }

  lemma SleepEndWakes(r: Row, id: string, at: nat, worker: string, cut: nat)
    requires r.tx.None? && r.status.Running? && cut <= 3
    ensures WakeSource(After(r, [PutTimer(id, at), SetStatus(WaitingForTimer), ReleaseBy(worker)], cut))
  {
    hide After;
    WalkThree(r, PutTimer(id, at), SetStatus(WaitingForTimer), ReleaseBy(worker), cut);
    assert id in Write(r, PutTimer(id, at)).timers;
  }

  lemma WaitEndWakes(r: Row, ch: string, wait: Wait, worker: string, cut: nat)
    requires r.tx.None? && r.status.Running? && cut <= 3
    requires ch in r.subscriptions && !HasId(r.history, wait.activityId)
    ensures WakeSource(After(r, [SetWaiting(ch, wait), SetStatus(WaitingForMessage), ReleaseBy(worker)], cut))
  {
    hide After, HasId;
    WalkThree(r, SetWaiting(ch, wait), SetStatus(WaitingForMessage), ReleaseBy(worker), cut);
    assert cut >= 2 ==>
      Awake(After(r, [SetWaiting(ch, wait), SetStatus(WaitingForMessage), ReleaseBy(worker)], cut), ch);
  }

  lemma RaiseWakes(r: Row, m: string, worker: string, env: Env, cut: nat)
    requires r.tx.None? && r.status.Running? && cut <= |Conclusion(r, Raised(m), worker, env)|
    ensures WakeSource(After(r, Conclusion(r, Raised(m), worker, env), cut))
  {
    hide ApplyAll, After, RollbackActions;
    var first, second :=
      RollbackActions(r, env.compensate), [Append(FailureEvent(m)), SetStatus(Failed), ReleaseBy(worker)];
    RollbackIsDirect(r, env.compensate);
    DirectCut(r, first, if cut <= |first| then cut else 0);
    CutConcat(r, first, second, cut);
    if |first| < cut {
      WalkThree(ApplyAll(r, first), second[0], second[1], second[2], cut - |first|);
    }
  }

  lemma RollbackIsDirect(r: Row, errors: Compensation -> Option<string>)
    ensures KeepsStatus(RollbackActions(r, errors))
  {
    PassShape(Lifo(r.compensations), ExecutedIds(r.history), errors);
  }

  lemma ConclusionWakes(r: Row, end: End, worker: string, env: Env, cut: nat)
    requires r.tx.None? && r.status.Running? && cut <= |Conclusion(r, end, worker, env)|
    requires end.WaitsFor? ==> end.channel in r.subscriptions && !HasId(r.history, end.id)
    ensures WakeSource(After(r, Conclusion(r, end, worker, env), cut))
  {
    hide ApplyAll, After, RollbackActions, Woken, HasId;
    match end
    case Returned(v) => WalkThree(r, SetOutput(v), SetStatus(Completed), ReleaseBy(worker), cut);
    case Raised(m) => RaiseWakes(r, m, worker, env, cut);
    case SleepsUntil(id, expires) => SleepEndWakes(r, id, Seconds(expires), worker, cut);
    case WaitsFor(ch, id, t) => WaitEndWakes(r, ch, Wait(id, StoredTimeout(t)), worker, cut);
    case Exhausted => AfterNone(r);
    case Recurs(input) => RecurRows(r, input, worker, cut);
  }

  lemma ExecutionWakes(wf: Workflow, base: Row, r: Row, worker: string, env: Env, fuel: nat, cut: nat)
    requires WellNamed(wf) && Sound(wf, base, r) && r.status.Running?
    requires cut <= |ExecutionActions(wf, r, worker, env, fuel)|
    ensures WakeSource(After(r, ExecutionActions(wf, r, worker, env, fuel), cut))
  {
    hide WellNamed, Sound, After, ApplyAll, Conclusion, Exec, Woken, HasId, CallsFresh, Covers;
    var plan := Exec(wf, [], CacheOf(r.history), env, fuel);
    var done := ApplyAll(r, plan.actions);
    var second := Conclusion(done, plan.end, worker, env);
    SoundIsClear(wf, base, r);
    CacheCovers(r.history);
    ExecSound(wf, base, r, [], CacheOf(r.history), env, fuel, 0);
    SoundIsClear(wf, base, done);
    ExecShape(wf, [], CacheOf(r.history), env, fuel);
    OfWorkflowApplied(r, plan.actions);
    CutConcat(r, plan.actions, second, cut);
    if |plan.actions| <= cut {
      ConclusionWakes(done, plan.end, worker, env, cut - |plan.actions|);
    } else {
      OfWorkflowCut(r, plan.actions, cut);
    }
  }

  lemma OfWorkflowCut(r: Row, actions: seq<Action>, cut: nat)
    requires r.tx.None? && (forall a :: a in actions ==> OfWorkflow(a)) && cut <= |actions|
    ensures After(r, actions, cut).status == r.status
  {
    hide ApplyAll;
    OfWorkflowApplied(r, actions[..cut]);
  }

  lemma ResumeWakes(wf: Workflow, base: Row, r: Row, worker: string, expires: nat, env: Env, fuel: nat, cut: nat)
    requires WellNamed(wf) && Sound(wf, base, r)
    requires cut <= |ResumeActions(wf, r, worker, expires, env, fuel)|
    ensures WakeSource(r) || (1 <= cut && r.status.WaitingForTimer?) ==>
              WakeSource(After(r, ResumeActions(wf, r, worker, expires, env, fuel), cut))
  {
    hide WellNamed, Sound, After, ApplyAll, ExecutionActions, HasId;
    var first := [Acquire(worker, expires), SetStatus(Running)];
    var started := Started(r, worker, expires);
    var second := ExecutionActions(wf, started, worker, env, fuel);
    SoundIsClear(wf, base, r);
    WalkTwo(r, first[0], first[1], if cut <= 2 then cut else 0);
    CutConcat(r, first, second, cut);
    if 2 <= cut {
      SoundTransfers(wf, base, r, started);
      ExecutionWakes(wf, base, started, worker, env, fuel, cut - 2);
    } else if WakeSource(r) && cut == 1 {
      LockedWakes(r, Write(r, first[0]));
    }
  }

  // ---- Handlers ----

  lemma CleaningWakes(wf: Workflow, w: World, step: Step, cut: nat)
    requires WellNamed(wf) && SoundWorld(wf, w) && step.Cleaning? && WakeSource(w.row)
    ensures WakeSource(Next(wf, w, step, cut).row) <==> !Loses(w, step, cut)
  {
    hide WellNamed, Sound, FormedWorld, After, ApplyAll, ResumeActions, Woken;
    SoundIsClear(wf, w.base, w.row);
    if !Acts(w, step) {
      AfterNone(w.row);
    } else {
      var r' := w.row.(lock := Unlocked);
      var resumes := step.listed && Resumable(w.row.status);
      var second := if resumes then ResumeActions(wf, r', step.worker, step.expires, step.env, step.fuel) else [];
      var k := Clip(cut, [BreakLock] + second);
      Walk(w.row, BreakLock, second, k);
      SoundTransfers(wf, w.base, w.row, r');
      AfterNone(r');
      SameWoken(w.row, r');
      if resumes && 1 <= k {
        ResumeStarts(wf, r', step.worker, step.expires, step.env, step.fuel);
        ResumeWakes(wf, w.base, r', step.worker, step.expires, step.env, step.fuel, k - 1);
        if k == 1 {
          AfterNothing(r', second);
        }
      }
    }
  }

  lemma ResumeStarts(wf: Workflow, r: Row, worker: string, expires: nat, env: Env, fuel: nat)
    ensures |ResumeActions(wf, r, worker, expires, env, fuel)| >= 2
  {
    hide ExecutionActions;
  }

  lemma AfterNothing(r: Row, actions: seq<Action>)
    requires r.tx.None?
    ensures After(r, actions, 0) == r
  {
    assert actions[..0] == [];
    ApplyNone(r);
  }

  lemma SameWoken(r: Row, r': Row)
    requires r'.history == r.history && r'.subscriptions == r.subscriptions
    ensures Woken(r') == Woken(r)
  {
    assert forall ch :: Awake(r, ch) == Awake(r', ch);
  }

  /** An id that no wait on another channel than `ch` can have. */
  ghost predicate NotElsewhere(id: string, ch: string) {
    ReceiveId(ch, id) || SleepId(id) || Unclaimed(id) || (exists n :: id == RecordId(n))
  }

  lemma WaitsElsewhere(id: string, ch: string, other: string, waited: string)
    requires NotElsewhere(id, ch) && other != ch && ReceiveId(other, waited)
    ensures id != waited
  {
    hide Render;
    var n :| waited == Render("receive_" + other, n);
    ReceiveStarts(other, n);
    assert "sleep"[0] == 's' && "compensation"[0] == 'c' && ("receive_" + other)[0] == 'r';
    if ReceiveId(ch, id) {
      var m :| id == Render("receive_" + ch, m);
      assert ("receive_" + ch)[8..] == ch && ("receive_" + other)[8..] == other;
      if id == waited {
        RenderInjective("receive_" + ch, m, "receive_" + other, n);
      }
    } else if SleepId(id) {
      var m :| id == Render("sleep", m);
      if id == waited {
        RenderInjective("sleep", m, "receive_" + other, n);
      }
    } else if m :| id == RecordId(m) {
      if id == waited {
        RenderInjective("compensation", m, "receive_" + other, n);
      }
    }
  }

  lemma ReceiveStarts(channel: string, n: nat)
    ensures !Unclaimed(Render("receive_" + channel, n)) && Render("receive_" + channel, n) != ""
  {
    assert Render("receive_" + channel, n)[0] == 'r' && "channel:"[0] == 'c';
  }

  /** Recording under an id that is waited for on `ch` alone, if at all, leaves other waits as they were. */
  lemma OthersStayAwake(r: Row, e: Event, ch: string, other: string)
    requires FormedRow(r) && NotElsewhere(e.activityId, ch) && other != ch
    ensures Awake(r.(history := Appended(r.history, e)), other) == Awake(r, other)
  {
    hide Proper, SleepId, ReceiveId, HasId, NotElsewhere;
    if other in r.subscriptions && r.subscriptions[other].Some? {
      var id := r.subscriptions[other].value.activityId;
      AppendedIds(r.history, e, id);
      WaitsElsewhere(e.activityId, ch, other, id);
    }
  }

  /** The rows an answering handler goes through. */
  lemma AnswerRows(r: Row, worker: string, expires: nat, e: Event, ch: string, cut: nat)
    requires r.tx.None? && cut <= 5
    ensures After(r, AnswerActions(worker, expires, e, ch), cut) ==
            r.(lock := if cut == 0 then r.lock else if cut < 5 then Locked(worker, expires) else Unlocked,
               history := if cut < 2 then r.history else Appended(r.history, e),
               subscriptions := if cut < 3 || ch !in r.subscriptions then r.subscriptions
                                else r.subscriptions[ch := None],
               status := if cut < 4 then r.status else Running)
  {
    hide ApplyAll, After, Appended;
    var first, second := [Acquire(worker, expires), Append(e)], [ClearWaiting(ch), SetStatus(Running), ReleaseBy(worker)];
    assert AnswerActions(worker, expires, e, ch) == first + second;
    WalkTwo(r, first[0], first[1], if cut <= 2 then cut else 2);
    CutConcat(r, first, second, cut);
    if 2 <= cut {
      WalkThree(ApplyAll(r, first), second[0], second[1], second[2], cut - 2);
    }
  }

  /** After an answer, what is still awake. */
  lemma AnswerWakes(r: Row, worker: string, expires: nat, e: Event, ch: string, cut: nat)
    requires FormedRow(r) && r.tx.None? && WakeSource(r) && cut <= 5 && NotElsewhere(e.activityId, ch)
    ensures WakeSource(After(r, AnswerActions(worker, expires, e, ch), cut)) <==>
            !(&& r.status.WaitingForMessage? && OnlyAwake(r, ch)
              && (cut == 3 || (cut == 2 && !Awake(r.(history := Appended(r.history, e)), ch))))
  {
    hide FormedRow, After, ApplyAll, HasId, Appended, NotElsewhere;
    AnswerRows(r, worker, expires, e, ch, cut);
    var r' := After(r, AnswerActions(worker, expires, e, ch), cut);
    if r.status.WaitingForMessage? && cut < 4 {
      var recorded := r.(history := Appended(r.history, e));
      forall other | other != ch ensures Awake(r', other) == Awake(r, other) {
        OthersStayAwake(r, e, ch, other);
      }
      if cut < 2 {
        SameWoken(r, r');
      } else if cut == 2 {
        assert Awake(r', ch) == Awake(recorded, ch);
      } else {
        assert !Awake(r', ch);
      }
      if !OnlyAwake(r, ch) {
        var other :| other != ch && Awake(r, other);
        assert Awake(r', other);
      }
    }
  }

  lemma DeliveryIsHere(r: Row, ch: string, message: nat, text: string)
    requires FormedRow(r) && ch in r.subscriptions
    ensures NotElsewhere(DeliveryEvent(r, ch, message, text).activityId, ch)
  {
    hide Proper, SleepId, ReceiveId;
    assert Render("channel:" + ch, message) == "channel:" + (ch + ":" + Decimal(message));
  }

  lemma DeliveredAwake(r: Row, ch: string, message: nat, text: string)
    requires ch in r.subscriptions
    requires r.subscriptions[ch].Some? ==> r.subscriptions[ch].value.activityId != ""
    ensures Awake(r.(history := Appended(r.history, DeliveryEvent(r, ch, message, text))), ch) <==>
            r.subscriptions[ch].Some? && r.subscriptions[ch].value.timeoutAt.Some?
  {
  }

  lemma WaitsAreNamed(r: Row, ch: string)
    requires FormedRow(r) && ch in r.subscriptions && r.subscriptions[ch].Some?
    ensures r.subscriptions[ch].value.activityId != ""
  {
    hide Proper, SleepId, Render;
    assert ReceiveId(ch, r.subscriptions[ch].value.activityId);
    var n :| r.subscriptions[ch].value.activityId == Render("receive_" + ch, n);
    ReceiveStarts(ch, n);
  }

  lemma SoundIsFormed(wf: Workflow, w: World)
    requires SoundWorld(wf, w)
    ensures FormedRow(w.row) && w.row.tx.None?
  {
    hide Books, Intact;
  }

  lemma DeliveringWakes(wf: Workflow, w: World, step: Step, cut: nat)
    requires SoundWorld(wf, w) && step.Delivering? && WakeSource(w.row)
    ensures WakeSource(Next(wf, w, step, cut).row) <==> !Loses(w, step, cut)
  {
    hide Sound, FormedRow, After, ApplyAll, HasId, DeliveryEvent, DeliveryId, AnswerActions, NotElsewhere;
    var r, ch := w.row, step.channel;
    SoundIsFormed(wf, w);
    if !Acts(w, step) {
      AfterNone(r);
    } else if Refused(r, ch, step.message) {
      WalkTwo(r, Acquire(step.worker, step.expires), ReleaseBy(step.worker), if cut <= 2 then cut else 2);
      SameWoken(r, Next(wf, w, step, cut).row);
    } else {
      var e := DeliveryEvent(r, ch, step.message, step.text);
      AnswerLength(step.worker, step.expires, e, ch);
      DeliveryIsHere(r, ch, step.message, step.text);
      AnswerWakes(r, step.worker, step.expires, e, ch, if cut <= 5 then cut else 5);
      if r.subscriptions[ch].Some? { WaitsAreNamed(r, ch); }
      DeliveredAwake(r, ch, step.message, step.text);
      if r.status.WaitingForMessage? && OnlyAwake(r, ch) {
        var other :| Awake(r, other);
        assert other == ch;
      }
    }
  }

  lemma AnswerLength(worker: string, expires: nat, e: Event, ch: string)
    ensures |AnswerActions(worker, expires, e, ch)| == 5
  {
  }

  lemma LateAwake(r: Row, ch: string, e: Event)
    requires Awake(r, ch)
    ensures Awake(r.(history := Appended(r.history, e)), ch) <==>
            !(Untimed(r, ch) && r.subscriptions[ch].value.activityId == e.activityId && !HasId(r.history, e.activityId))
  {
    AppendedIds(r.history, e, r.subscriptions[ch].value.activityId);
  }

  lemma LateIsHere(w: World, l: Late)
    requires FormedWorld(w) && l in w.foundLate
    ensures NotElsewhere(l.activityId, l.channel)
  {
  }

  lemma TimingOutWakes(wf: Workflow, w: World, step: Step, cut: nat)
    requires SoundWorld(wf, w) && step.TimingOut? && Possible(w, step) && WakeSource(w.row)
    ensures WakeSource(Next(wf, w, step, cut).row) <==> !Loses(w, step, cut)
  {
    hide Sound, FormedRow, After, ApplyAll, HasId, AnswerActions, NotElsewhere;
    var r, ch := w.row, step.channel;
    SoundIsFormed(wf, w);
    if !Acts(w, step) {
      AfterNone(r);
    } else {
      var e := Event(step.id, MessageTimeout, Json(step.text));
      LateIsHere(w, Late(ch, step.id));
      AnswerLength(step.worker, step.expires, e, ch);
      AnswerWakes(r, step.worker, step.expires, e, ch, if cut <= 5 then cut else 5);
      if r.status.WaitingForMessage? && OnlyAwake(r, ch) {
        var other :| Awake(r, other);
        assert other == ch;
        LateAwake(r, ch, e);
      }
    }
  }

  lemma FiringWakes(wf: Workflow, w: World, step: Step, cut: nat)
    requires SoundWorld(wf, w) && step.Firing? && Possible(w, step) && WakeSource(w.row)
    ensures WakeSource(Next(wf, w, step, cut).row)
  {
    hide Sound, FormedRow, After, ApplyAll, HasId, SleepId, ReceiveId, Appended;
    var r := w.row;
    SoundIsFormed(wf, w);
    if !Acts(w, step) {
      AfterNone(r);
    } else {
      var e := TimerEvent(step.id);
      WalkThree(r, Acquire(step.worker, step.expires), DropTimer(step.id), Append(e), if cut <= 3 then cut else 3);
      var r' := Next(wf, w, step, cut).row;
      if r.status.WaitingForMessage? {
        var ch :| Awake(r, ch);
        // any channel but `ch` will do: the record answers a sleep
        OthersStayAwake(r, e, ch + "'", ch);
        assert Awake(r', ch);
      }
    }
  }

  lemma RestartingWakes(wf: Workflow, w: World, step: Step, cut: nat)
    requires w.row.tx.None? && step.Restarting? && WakeSource(w.row)
    ensures WakeSource(Next(wf, w, step, cut).row)
  {
    hide After, ApplyAll;
    if !Acts(w, step) {
      AfterNone(w.row);
    } else {
      WalkThree(w.row, Acquire(step.worker, step.expires), SetStatus(Running), ReleaseBy(step.worker),
        if cut <= 3 then cut else 3);
      SameWoken(w.row, Next(wf, w, step, cut).row);
    }
  }

  /** Results of compensations, and their attempts. */
  predicate IsPass(actions: seq<Action>) {
    forall a :: a in actions ==>
      a.Call? || (a.Append? && IsResult(a.event) && a.event.activityId == RecordId(a.event.data.compensationId))
  }

  lemma {:induction false} PassQuiet(r: Row, actions: seq<Action>)
    requires r.tx.None? && IsPass(actions)
    ensures var r' := ApplyAll(r, actions);
            && r'.tx.None? && r'.status == r.status && r'.lock == r.lock
            && r'.subscriptions == r.subscriptions && r'.timers == r.timers
  {
    hide HasId, Appended;
    if actions != [] {
      assert actions[|actions| - 1] in actions;
      PassQuiet(r, actions[..|actions| - 1]);
    }
  }

  /** They answer no wait. */
  lemma {:induction false} PassWoken(r: Row, actions: seq<Action>, ch: string)
    requires FormedRow(r) && r.tx.None? && IsPass(actions) && Awake(r, ch)
    ensures Awake(ApplyAll(r, actions), ch)
  {
    hide FormedRow, HasId, Write, Appended;
    PassQuiet(r, actions);
    if actions == [] {
      ApplyNone(r);
    } else {
      var init, a := actions[..|actions| - 1], actions[|actions| - 1];
      var before := ApplyAll(r, init);
      assert a in actions;
      PassQuiet(r, init);
      PassWoken(r, init, ch);
      if a.Call? {
        WritesNothing(before, a);
      } else {
        var id := r.subscriptions[ch].value.activityId;
        AppendOnly(before, a.event);
        AppendedIds(before.history, a.event, id);
        WaitIsReceive(r, ch);
        // any other channel will do
        assert NotElsewhere(a.event.activityId, ch + "'");
        WaitsElsewhere(a.event.activityId, ch + "'", ch, id);
      }
    }
  }

  lemma AppendOnly(r: Row, e: Event)
    ensures Write(r, Append(e)) == r.(history := Appended(r.history, e))
  {
  }

  lemma WaitIsReceive(r: Row, ch: string)
    requires FormedRow(r) && ch in r.subscriptions && r.subscriptions[ch].Some?
    ensures ReceiveId(ch, r.subscriptions[ch].value.activityId)
  {
  }

  lemma RollbackIsPass(r: Row, errors: Compensation -> Option<string>)
    ensures IsPass(RollbackActions(r, errors))
  {
    PassShape(Lifo(r.compensations), ExecutedIds(r.history), errors);
  }

  /** A locked instance in the middle of a rollback. */
  lemma RollbackWakes(r: Row, errors: Compensation -> Option<string>, actions: seq<Action>, cut: nat)
    requires FormedRow(r) && r.tx.None? && WakeSource(r) && r.lock.Locked?
    requires IsPass(actions) && KeepsStatus(actions) && cut <= |actions|
    ensures var r' := After(r, actions, cut); WakeSource(r')
    ensures ApplyAll(r, actions).tx.None? && ApplyAll(r, actions).status == r.status
  {
    hide ApplyAll, FormedRow, Awake, IsPass;
    DirectCut(r, actions, cut);
    SomePass(actions, cut);
    PassQuiet(r, actions[..cut]);
    if r.status.WaitingForMessage? {
      var ch :| Awake(r, ch);
      PassWoken(r, actions[..cut], ch);
    }
  }

  lemma SomePass(actions: seq<Action>, k: nat)
    requires IsPass(actions) && k <= |actions|
    ensures IsPass(actions[..k])
  {
  }

  lemma LockedRow(r: Row, worker: string, expires: nat)
    requires FormedRow(r)
    ensures var r' := Write(r, Acquire(worker, expires)); FormedRow(r') && r'.lock.Locked? && r'.status == r.status
    ensures forall errors :: RollbackActions(Write(r, Acquire(worker, expires)), errors) == RollbackActions(r, errors)
  {
    hide Lifo, ExecutedIds, PassActions, Proper, SleepId, ReceiveId;
  }

  lemma CancellingWakes(wf: Workflow, w: World, step: Step, cut: nat)
    requires SoundWorld(wf, w) && step.Cancelling? && WakeSource(w.row)
    ensures WakeSource(Next(wf, w, step, cut).row)
  {
    hide Sound, FormedRow, After, ApplyAll, RollbackActions, CancelEnd, Woken, IsPass, KeepsStatus;
    SoundIsFormed(wf, w);
    if !Acts(w, step) || Terminal(step.seen) {
      AfterNone(w.row);
    } else {
      var acquire := Acquire(step.worker, step.expires);
      var locked := Write(w.row, acquire);
      var rollback, rest := RollbackActions(w.row, step.errors), CancelEnd(w.row.status, step.worker);
      var k := Clip(cut, [acquire] + (rollback + rest));
      Walk(w.row, acquire, rollback + rest, k);
      LockedRow(w.row, step.worker, step.expires);
      LockedWakes(w.row, locked);
      if 1 <= k {
        RollbackIsPass(w.row, step.errors);
        RollbackIsDirect(w.row, step.errors);
        CutConcat(locked, rollback, rest, k - 1);
        RollbackWakes(locked, step.errors, rollback, if k - 1 <= |rollback| then k - 1 else 0);
        if |rollback| < k - 1 {
          CancelEndWakes(w.row.status, ApplyAll(locked, rollback), step.worker, k - 1 - |rollback|);
        }
      }
    }
  }

  lemma CancelEndWakes(status: Status, r: Row, worker: string, cut: nat)
    requires r.tx.None? && r.status == status && 0 < cut <= |CancelEnd(status, worker)|
    ensures WakeSource(After(r, CancelEnd(status, worker), cut))
  {
    hide After, ApplyAll;
    if Terminal(status) {
      assert [ReleaseBy(worker)] == [ReleaseBy(worker)] + [];
      Walk(r, ReleaseBy(worker), [], cut);
      AfterNone(Write(r, ReleaseBy(worker)));
    } else {
      WalkTwo(r, SetStatus(Cancelled), ReleaseBy(worker), cut);
    }
  }

  /**
   * No lost wake-up, exactly.  A possible step that dies anywhere keeps a wake source, except at
   * the moments that Loses lists; and at each of those it is lost.
   */
  lemma WakeLostExactly(wf: Workflow, w: World, step: Step, cut: nat)
    requires WellNamed(wf) && SoundWorld(wf, w) && WakeSource(w.row) && Possible(w, step)
    ensures WakeSource(Next(wf, w, step, cut).row) <==> !Loses(w, step, cut)
  {
    hide WellNamed, Sound, FormedWorld, After, ApplyAll, ResumeActions, HandlerActions, HasId, Woken;
    SoundIsClear(wf, w.base, w.row);
    match step
    case Resuming(worker, expires, env, fuel) =>
      if Acts(w, step) {
        ResumeWakes(wf, w.base, w.row, worker, expires, env, fuel, Clip(cut, Actions(wf, w, step)));
      } else {
        AfterNone(w.row);
      }
    case Cleaning(_, _, _, _, _) => CleaningWakes(wf, w, step, cut);
    case Firing(_, _, _) => FiringWakes(wf, w, step, cut);
    case Delivering(_, _, _, _, _) => DeliveringWakes(wf, w, step, cut);
    case TimingOut(_, _, _, _, _) => TimingOutWakes(wf, w, step, cut);
    case Restarting(_, _) => RestartingWakes(wf, w, step, cut);
    case Cancelling(_, _, _, _) => CancellingWakes(wf, w, step, cut);
    case Polling =>
    case Passing(_) =>
  }

  // ---- Runs ----

  /** No move of the run dies at a moment that loses the last wake source. */
  ghost predicate Careful(wf: Workflow, w: World, moves: seq<Move>)
    decreases |moves|
  {
    moves == [] ||
    (!Loses(w, moves[0].step, moves[0].cut) && Careful(wf, Next(wf, w, moves[0].step, moves[0].cut), moves[1..]))
  }

  lemma {:induction false} CarefulRunKeepsWake(wf: Workflow, w: World, moves: seq<Move>)
    requires WellNamed(wf) && SoundWorld(wf, w) && WakeSource(w.row)
    requires PossibleRun(wf, w, moves) && Careful(wf, w, moves)
    ensures WakeSource(Reached(wf, w, moves).row)
    decreases |moves|
  {
    hide WellNamed, SoundWorld, Possible, Next, Loses, WakeSource;
    if moves != [] {
      StepSound(wf, w, moves[0].step, moves[0].cut);
      WakeLostExactly(wf, w, moves[0].step, moves[0].cut);
      CarefulRunKeepsWake(wf, Next(wf, w, moves[0].step, moves[0].cut), moves[1..]);
    }
  }

  /** Every instance that was started and run carefully can still be run to its end. */
  lemma NoLostWakeup(wf: Workflow, moves: seq<Move>)
    requires WellNamed(wf) && PossibleRun(wf, NEW, moves) && Careful(wf, NEW, moves)
    ensures WakeSource(Reached(wf, NEW, moves).row)
  {
    hide WellNamed, SoundWorld, PossibleRun, Careful;
    NewIsSound(wf);
    CarefulRunKeepsWake(wf, NEW, moves);
  }

  /** The step takes place as a whole. */
  predicate Whole(wf: Workflow, w: World, step: Step, cut: nat) {
    cut >= |Actions(wf, w, step)|
  }

  /**
   * With deaths only inside executions, that is with every handler taken as a whole, two moments
   * remain: a cleanup that clears more locks than it lists, and a delivery that gives up on an
   * instance whose lock it took over.  Both need a sleep whose timer row is already gone.
   */
  lemma WholeHandlersLose(wf: Workflow, w: World, step: Step, cut: nat)
    requires Loses(w, step, cut)
    requires step.Delivering? || step.TimingOut? ==> Whole(wf, w, step, cut)
    requires step.Cleaning? && step.listed && Resumable(w.row.status) ==> cut != 1
    ensures OnlyLeased(w.row)
    ensures (step.Cleaning? && !step.listed) || (step.Delivering? && Refused(w.row, step.channel, step.message))
  {
    hide ResumeActions, RollbackActions;
  }

  /** Apart from those two, whole handlers and executions that die anywhere lose no wake source. */
  lemma WholeHandlersKeepWake(wf: Workflow, w: World, step: Step, cut: nat)
    requires WellNamed(wf) && SoundWorld(wf, w) && WakeSource(w.row) && Possible(w, step)
    requires step.Delivering? || step.TimingOut? ==> Whole(wf, w, step, cut)
    requires step.Cleaning? && step.listed && Resumable(w.row.status) ==> cut != 1
    requires OnlyLeased(w.row) ==>
               (step.Cleaning? ==> step.listed) && (step.Delivering? ==> !Refused(w.row, step.channel, step.message))
    ensures WakeSource(Next(wf, w, step, cut).row)
  {
    hide WellNamed, SoundWorld, Whole, Next, Loses, WakeSource;
    WakeLostExactly(wf, w, step, cut);
    if Loses(w, step, cut) {
      WholeHandlersLose(wf, w, step, cut);
    }
  }

  // ---- Lost is lost ----

  /** What the background tasks would take up, as things stand. */
  predicate Offered(w: World, step: Step) {
    && (step.Resuming? ==> w.row.status.Running? && w.row.lock.Unlocked?)
    && (step.Restarting? ==> w.row.status.Recurred?)
    && (step.Delivering? ==>
          step.channel in w.row.subscriptions && w.row.subscriptions[step.channel].Some?)
    && !step.Cancelling?
  }

  predicate Answered(r: Row, ch: string)
    requires ch in r.subscriptions && r.subscriptions[ch].Some?
  {
    var wait := r.subscriptions[ch].value;
    wait.activityId != "" && HasId(r.history, wait.activityId) && wait.timeoutAt.None?
  }

  /** Nothing found, no timer, no lock to expire, and no wait that is still open. */
  ghost predicate Stuck(w: World) {
    && w.row.tx.None? && w.row.timers == map[] && w.found == {} && w.foundLate == {}
    && (|| (OnlyLeased(w.row) && w.row.lock.Unlocked? && NoWaits(w.row))
        || (w.row.status.WaitingForMessage?
            && forall ch :: ch in w.row.subscriptions && w.row.subscriptions[ch].Some? ==> Answered(w.row, ch)))
  }

  /** A stuck instance stays stuck, and its workflow is not run. */
  lemma StuckStays(wf: Workflow, w: World, step: Step, cut: nat)
    requires Stuck(w) && Offered(w, step) && Possible(w, step)
    ensures Stuck(Next(wf, w, step, cut))
    ensures Next(wf, w, step, cut).row.history == w.row.history
    ensures forall a :: a in Actions(wf, w, step) ==> !a.Call?
  {
    hide ApplyAll, After, ResumeActions, RollbackActions, HasId;
    var r := w.row;
    AfterNone(r);
    if step.Delivering? && Acts(w, step) {
      assert Answered(r, step.channel);
      WalkTwo(r, Acquire(step.worker, step.expires), ReleaseBy(step.worker), if cut <= 2 then cut else 2);
      assert Stuck(Next(wf, w, step, cut));
    } else if step.Cleaning? && Acts(w, step) {
      assert [BreakLock] + [] == [BreakLock];
      Walk(r, BreakLock, [], if cut <= 1 then cut else 1);
      AfterNone(r.(lock := Unlocked));
    } else if step.Polling? {
      assert forall ch :: ch in r.subscriptions && r.subscriptions[ch].Some? ==> Answered(r, ch);
      assert LateWaits(r, w.now) == {} && DueTimers(r, w.now) == map[];
    }
  }

  /** A run of the background tasks and of publishers alone. */
  ghost predicate AllOffered(wf: Workflow, w: World, moves: seq<Move>)
    decreases |moves|
  {
    moves == [] ||
    (Offered(w, moves[0].step) && AllOffered(wf, Next(wf, w, moves[0].step, moves[0].cut), moves[1..]))
  }

  /** Whatever the background tasks and publishers do, a stuck instance never gets on. */
  lemma {:induction false} StuckForever(wf: Workflow, w: World, moves: seq<Move>)
    requires Stuck(w) && PossibleRun(wf, w, moves) && AllOffered(wf, w, moves)
    ensures Stuck(Reached(wf, w, moves)) && Reached(wf, w, moves).row.history == w.row.history
    decreases |moves|
  {
    hide Possible, Next, Stuck, Offered;
    if moves != [] {
      StuckStays(wf, w, moves[0].step, moves[0].cut);
      StuckForever(wf, Next(wf, w, moves[0].step, moves[0].cut), moves[1..]);
    }
  }

  /** Nothing else is under way: nothing found that could still be handled, no other timer or wait. */
  ghost predicate NothingElse(w: World) {
    && w.found == {} && w.foundLate == {} && w.row.timers == map[]
    && (w.row.status.WaitingForTimer? ==> NoWaits(w.row))
  }

  /** If nothing else is under way, losing the last wake source is for ever. */
  lemma LossIsForever(wf: Workflow, w: World, step: Step, cut: nat)
    requires WellNamed(wf) && SoundWorld(wf, w) && WakeSource(w.row) && Possible(w, step)
    requires Loses(w, step, cut) && NothingElse(w)
    ensures Stuck(Next(wf, w, step, cut))
  {
    hide WellNamed, Sound, FormedRow, ApplyAll, After, ResumeActions, RollbackActions, HasId, Appended,
         DeliveryEvent, DeliveryId;
    SoundIsFormed(wf, w);
    WakeLostExactly(wf, w, step, cut);
    StepSound(wf, w, step, cut);
    var r, w' := w.row, Next(wf, w, step, cut);
    SoundIsFormed(wf, w');
    forall ch | ch in w'.row.subscriptions && w'.row.subscriptions[ch].Some? && w'.row.status.WaitingForMessage?
      ensures Answered(w'.row, ch)
    {
      WaitsAreNamed(w'.row, ch);
      assert !Awake(w'.row, ch);
    }
    if step.Cleaning? {
      LosingCleanup(wf, w, step, cut);
    } else if step.Delivering? && Refused(r, step.channel, step.message) {
      WalkTwo(r, Acquire(step.worker, step.expires), ReleaseBy(step.worker), 2);
    } else if step.Delivering? {
      AnswerRows(r, step.worker, step.expires, DeliveryEvent(r, step.channel, step.message, step.text), step.channel, cut);
    }
  }

  lemma LosingCleanup(wf: Workflow, w: World, step: Step, cut: nat)
    requires w.row.tx.None? && step.Cleaning? && Loses(w, step, cut)
    ensures Next(wf, w, step, cut) == w.(row := w.row.(lock := Unlocked))
  {
    hide ResumeActions, ApplyAll;
    var second := if step.listed && Resumable(w.row.status)
      then ResumeActions(wf, w.row.(lock := Unlocked), step.worker, step.expires, step.env, step.fuel) else [];
    assert Actions(wf, w, step) == [BreakLock] + second;
    if step.listed {
      ResumeStarts(wf, w.row.(lock := Unlocked), step.worker, step.expires, step.env, step.fuel);
    }
    Walk(w.row, BreakLock, second, 1);
    AfterNothing(w.row.(lock := Unlocked), second);
    assert ([BreakLock] + second)[..1] == [BreakLock];
  }

  // ---- A wake source is one ----

  /** A step of the background tasks that runs the workflow code of the instance. */
  predicate Runs(w: World, step: Step) {
    || (step.Resuming? && w.row.status.Running? && w.row.lock.Unlocked?)
    || (step.Cleaning? && Acts(w, step) && step.listed && Resumable(w.row.status))
  }

  /** One step of a background task, a publisher or time. */
  ghost predicate Leads(wf: Workflow, w: World, w': World) {
    exists step, cut :: Possible(w, step) && Offered(w, step) && Next(wf, w, step, cut) == w'
  }

  /** Within `n` such steps the workflow code is run. */
  ghost predicate Wakeable(wf: Workflow, w: World, n: nat)
    decreases n
  {
    || (exists step :: Runs(w, step))
    || (n > 0 && exists w' :: Leads(wf, w, w') && Wakeable(wf, w', n - 1))
  }

  lemma StepsTowards(wf: Workflow, w: World, step: Step, cut: nat, n: nat)
    requires Possible(w, step) && Offered(w, step) && Wakeable(wf, Next(wf, w, step, cut), n)
    ensures Wakeable(wf, w, n + 1)
  {
    hide Possible, Offered, Next;
    assert Leads(wf, w, Next(wf, w, step, cut));
  }

  const ENV: Env := Env(0, id => Ok(""), id => None, c => None)

  lemma RunningIsWakeable(wf: Workflow, w: World)
    requires w.row.status.Running? && w.row.lock.Unlocked?
    ensures Wakeable(wf, w, 0)
  {
    assert Runs(w, Resuming("", 0, ENV, 0));
  }

  /** Long enough for a lock and a stored instant to pass. */
  function LongAfter(w: World, second: nat): nat {
    ((if w.row.lock.Locked? then w.row.lock.expires else 0) + second + 1) * SECOND
  }

  lemma AfterLong(w: World, second: nat)
    ensures var now := w.now + LongAfter(w, second);
            && second < Seconds(now) && (w.row.lock.Locked? ==> Expired(w.row.lock, now))
  {
    var locked := if w.row.lock.Locked? then w.row.lock.expires else 0;
    SecondsMonotone(LongAfter(w, second), w.now + LongAfter(w, second));
    assert Seconds(LongAfter(w, second)) == locked + second + 1;
  }

  lemma WaitsTowards(wf: Workflow, w: World, second: nat, n: nat)
    requires w.row.tx.None?
    requires Wakeable(wf, w.(now := w.now + LongAfter(w, second)), n)
    ensures Wakeable(wf, w, n + 1)
  {
    StepsTowards(wf, w, Passing(LongAfter(w, second)), 0, n);
  }

  lemma LeasedIsWakeable(wf: Workflow, w: World)
    requires w.row.tx.None? && w.row.lock.Locked? && Resumable(w.row.status)
    ensures Wakeable(wf, w, 1)
  {
    hide LongAfter, Leads, Offered, Possible, Actions;
    AfterLong(w, 0);
    var later := w.(now := w.now + LongAfter(w, 0));
    assert Runs(later, Cleaning("", 0, ENV, 0, true));
    WaitsTowards(wf, w, 0, 0);
  }

  lemma RecurredIsWakeable(wf: Workflow, w: World)
    requires w.row.tx.None? && w.row.status.Recurred?
    ensures Wakeable(wf, w, 2)
  {
    hide Wakeable, ApplyAll, After;
    AfterLong(w, 0);
    var later := w.(now := w.now + LongAfter(w, 0));
    var step := Restarting("", 0);
    WalkThree(w.row, Acquire("", 0), SetStatus(Running), ReleaseBy(""), 3);
    RunningIsWakeable(wf, Next(wf, later, step, 3));
    StepsTowards(wf, later, step, 3, 0);
    WaitsTowards(wf, w, 0, 1);
  }

  lemma SleepingIsWakeable(wf: Workflow, w: World, id: string)
    requires w.row.tx.None? && w.row.status.WaitingForTimer? && id in w.row.timers
    ensures Wakeable(wf, w, 4)
  {
    hide Wakeable, ApplyAll, After, Appended, LongAfter;
    AfterLong(w, w.row.timers[id]);
    var later := w.(now := w.now + LongAfter(w, w.row.timers[id]));
    var found := Next(wf, later, Polling, 0);
    assert id in DueTimers(later.row, later.now);
    FiredIsWakeable(wf, found, id);
    StepsTowards(wf, later, Polling, 0, 2);
    WaitsTowards(wf, w, w.row.timers[id], 3);
  }

  lemma FiredIsWakeable(wf: Workflow, w: World, id: string)
    requires w.row.tx.None? && w.row.status.WaitingForTimer? && id in w.found && Available(w.row.lock, "", w.now)
    ensures Wakeable(wf, w, 2)
  {
    hide Wakeable, ApplyAll, After, Appended;
    var step := Firing("", 0, id);
    WalkThree(w.row, Acquire("", 0), DropTimer(id), Append(TimerEvent(id)), 3);
    LeasedIsWakeable(wf, Next(wf, w, step, 3));
    StepsTowards(wf, w, step, 3, 1);
  }

  lemma WaitingIsWakeable(wf: Workflow, w: World, ch: string)
    requires SoundWorld(wf, w) && w.row.status.WaitingForMessage? && Awake(w.row, ch)
    ensures Wakeable(wf, w, 2) || Wakeable(wf, w, 3)
  {
    hide Wakeable, ApplyAll, After, Appended, Sound, FormedRow, HasId, LongAfter;
    SoundIsFormed(wf, w);
    WaitsAreNamed(w.row, ch);
    var wait := w.row.subscriptions[ch].value;
    var second := if wait.timeoutAt.Some? then wait.timeoutAt.value else 0;
    AfterLong(w, second);
    var later := w.(now := w.now + LongAfter(w, second));
    if !HasId(w.row.history, wait.activityId) {
      DeliveredIsWakeable(wf, later, ch);
      WaitsTowards(wf, w, second, 1);
    } else {
      assert Late(ch, wait.activityId) in LateWaits(later.row, later.now);
      TimedOutIsWakeable(wf, Next(wf, later, Polling, 0), ch, wait.activityId);
      StepsTowards(wf, later, Polling, 0, 1);
      WaitsTowards(wf, w, second, 2);
    }
  }

  lemma DeliveredIsWakeable(wf: Workflow, w: World, ch: string)
    requires w.row.tx.None? && Available(w.row.lock, "", w.now)
    requires ch in w.row.subscriptions && w.row.subscriptions[ch].Some? && !Refused(w.row, ch, 0)
    ensures Wakeable(wf, w, 1)
  {
    hide Wakeable, ApplyAll, After, Appended, HasId, DeliveryEvent, DeliveryId;
    var step := Delivering("", 0, ch, 0, "");
    AnswerRows(w.row, "", 0, DeliveryEvent(w.row, ch, 0, ""), ch, 5);
    RunningIsWakeable(wf, Next(wf, w, step, 5));
    StepsTowards(wf, w, step, 5, 0);
  }

  lemma TimedOutIsWakeable(wf: Workflow, w: World, ch: string, id: string)
    requires w.row.tx.None? && Available(w.row.lock, "", w.now) && Late(ch, id) in w.foundLate
    ensures Wakeable(wf, w, 1)
  {
    hide Wakeable, ApplyAll, After, Appended, HasId;
    var step := TimingOut("", 0, ch, id, "");
    AnswerRows(w.row, "", 0, Event(id, MessageTimeout, Json("")), ch, 5);
    RunningIsWakeable(wf, Next(wf, w, step, 5));
    StepsTowards(wf, w, step, 5, 0);
  }

  /**
   * A wake source is what it says: an instance that has one and is not at its end has its
   * workflow code run within four steps of background tasks, publishers and time.
   */
  lemma WakeSourceWakes(wf: Workflow, w: World)
    requires SoundWorld(wf, w) && WakeSource(w.row) && !Terminal(w.row.status)
    ensures exists n :: n <= 4 && Wakeable(wf, w, n)
  {
    hide Wakeable, SoundWorld;
    SoundIsFormed(wf, w);
    if w.row.status.Recurred? {
      RecurredIsWakeable(wf, w);
    } else if w.row.status.WaitingForMessage? {
      var ch :| Awake(w.row, ch);
      WaitingIsWakeable(wf, w, ch);
    } else if w.row.lock.Locked? {
      LeasedIsWakeable(wf, w);
    } else if w.row.status.Running? {
      RunningIsWakeable(wf, w);
    } else {
      var id :| id in w.row.timers;
      SleepingIsWakeable(wf, w, id);
    }
  }
}