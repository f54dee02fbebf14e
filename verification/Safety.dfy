/**
 * What every step keeps, wherever it dies, and what that means for whole runs: the recorded
 * history of an instance is the beginning of an uninterrupted run of its workflow.
 */
module Safety {
  import opened Prelude
  import opened ActivityIds
  import opened Clock
  import opened Locks
  import opened Tables
  import opened Workflows
  import opened Replay
  import opened Saga
  import opened Machine

  // ---- The invariant ----

  /** What workflow code has seen once it has passed everything recorded. */
  function Seen(r: Row): seq<Outcome> {
    Outs(Outcomes(r.history))
  }

  /** The workflow's next call is the sleep `id`. */
  ghost predicate SleepsOn(wf: Workflow, r: Row, id: string) {
    wf(Seen(r)).Sleep? && id == IdOf(wf, Seen(r))
  }

  /** The workflow's next call is the receive `id` on `channel`. */
  ghost predicate ReceivesOn(wf: Workflow, r: Row, channel: string, id: string) {
    wf(Seen(r)).WaitEvent? && wf(Seen(r)).channel == channel && id == IdOf(wf, Seen(r))
  }

  /** A timer row belongs to the sleep the workflow is at; a found timer may also be over. */
  ghost predicate TimersFit(wf: Workflow, r: Row, due: map<string, nat>) {
    && (forall id :: id in r.timers ==> SleepsOn(wf, r, id))
    && (forall id :: id in due ==> HasId(r.history, id) || SleepsOn(wf, r, id))
  }

  ghost predicate WaitsFit(wf: Workflow, r: Row, late: set<Late>) {
    && (forall ch :: ch in r.subscriptions && r.subscriptions[ch].Some? ==>
          var id := r.subscriptions[ch].value.activityId;
          id != "" && (HasId(r.history, id) || ReceivesOn(wf, r, ch, id)))
    && (forall l :: l in late ==> HasId(r.history, l.activityId) || ReceivesOn(wf, r, l.channel, l.activityId))
  }

  /** A completed or failed instance is where its workflow ends. */
  ghost predicate StatusFits(wf: Workflow, r: Row) {
    && (r.status.Completed? ==> wf(Seen(r)) == Return(r.output))
    && (r.status.Failed? ==> wf(Seen(r)).Fail? || exists m :: FailsUnrecorded(wf, Seen(r), m))
  }

  ghost predicate Healthy(wf: Workflow, w: World) {
    && Inv(wf, w.base, w.row)
    && TimersFit(wf, w.row, w.due)
    && WaitsFit(wf, w.row, w.late)
    && StatusFits(wf, w.row)
  }

  /** Nothing is waited for that was not before, and the history only grew. */
  predicate Follows(r: Row, r': Row) {
    && r.history <= r'.history
    && (forall id :: id in r'.timers ==> id in r.timers && (HasId(r'.history, id) ==> HasId(r.history, id)))
    && (forall ch :: ch in r'.subscriptions && r'.subscriptions[ch].Some? ==>
          ch in r.subscriptions && r'.subscriptions[ch] == r.subscriptions[ch])
  }

  /** The status is not one that claims the end of the workflow, or still the same. */
  predicate Claims(r: Row, r': Row) {
    || !(r'.status.Completed? || r'.status.Failed?)
    || (r'.status == r.status && r'.output == r.output && Outcomes(r'.history) == Outcomes(r.history))
  }

  /** A longer history has passed the next call, or its records are the same. */
  lemma PassedOrSame(wf: Workflow, r: Row, r': Row)
    requires OnPath(wf, r) && OnPath(wf, r') && r.history <= r'.history
    requires !Ends(wf(Seen(r)))
    ensures HasId(r'.history, IdOf(wf, Seen(r))) || Seen(r') == Seen(r)
  {
    hide IsOutcome, KeepsClear, Filter, Fits;
    var records, more := Outcomes(r.history), r'.history[|r.history|..];
    assert r'.history == r.history + more;
    FilterConcat(r.history, more, IsOutcome);
    var records' := Outcomes(r'.history);
    if |records| < |records'| {
      assert Answers(wf, records', |records|);
      assert Outs(records')[..|records|] == Outs(records);
      FilterMembers(r'.history, IsOutcome);
      assert records'[|records|] in r'.history;
    } else {
      assert records' == records;
    }
  }

  lemma TimersStayFit(wf: Workflow, r: Row, r': Row, due: map<string, nat>)
    requires WellNamed(wf) && OnPath(wf, r) && OnPath(wf, r') && Follows(r, r') && TimersFit(wf, r, due)
    ensures TimersFit(wf, r', due)
  {
    hide WellNamed, OnPath, HasId, IdOf;
    forall id | id in r'.timers || id in due ensures HasId(r'.history, id) || SleepsOn(wf, r', id) {
      if HasId(r.history, id) {
        HasIdStays(r.history, r'.history, id);
      } else {
        PassedOrSame(wf, r, r');
      }
    }
    if id :| id in r'.timers && HasId(r'.history, id) {
      NextIdIsFree(wf, r);
    }
  }

  lemma WaitsStayFit(wf: Workflow, r: Row, r': Row, late: set<Late>)
    requires OnPath(wf, r) && OnPath(wf, r') && Follows(r, r') && WaitsFit(wf, r, late)
    ensures WaitsFit(wf, r', late)
  {
    hide OnPath, HasId, IdOf;
    forall ch, id | ReceivesOn(wf, r, ch, id) ensures HasId(r'.history, id) || ReceivesOn(wf, r', ch, id) {
      PassedOrSame(wf, r, r');
    }
    forall id | HasId(r.history, id) ensures HasId(r'.history, id) {
      HasIdStays(r.history, r'.history, id);
    }
  }

  lemma FollowsKeeps(wf: Workflow, w: World, r': Row)
    requires WellNamed(wf) && Healthy(wf, w) && Inv(wf, w.base, r') && Follows(w.row, r') && Claims(w.row, r')
    ensures Healthy(wf, w.(row := r'))
  {
    hide Inv, TimersFit, WaitsFit, Follows, Outcomes, IdOf, WellNamed;
    InvOnPath(wf, w.base, w.row);
    InvOnPath(wf, w.base, r');
    TimersStayFit(wf, w.row, r', w.due);
    WaitsStayFit(wf, w.row, r', w.late);
  }

  // ---- Single statements ----

  /** Locks, statuses and waits may change; the records, and what the account is about, do not. */
  predicate Quiet(r: Row, r': Row) {
    && Follows(r, r') && r'.tx == r.tx && r'.history == r.history
    && r'.userRows == r.userRows && r'.compensations == r.compensations
    && (r'.status.Completed? || r'.status.Failed? ==> r'.status == r.status && r'.output == r.output)
  }

  lemma QuietKeeps(wf: Workflow, w: World, r': Row)
    requires WellNamed(wf) && Healthy(wf, w) && Quiet(w.row, r')
    ensures Healthy(wf, w.(row := r'))
  {
    hide Inv, TimersFit, WaitsFit, StatusFits, Follows, Outcomes, WellNamed;
    InvOpen(wf, w.base, w.row);
    InvTransfers(wf, w.base, w.row, r');
    FollowsKeeps(wf, w, r');
  }

  predicate IsQuiet(a: Action) {
    || a.Acquire? || a.ReleaseBy? || a.BreakLock? || a.DropTimer? || a.ClearWaiting? || a.CopyToArchive?
    || a.Call? || a.See? || a.Subscribe?
    || (a.SetStatus? && !a.status.Completed? && !a.status.Failed?)
  }

  lemma WritesQuietly(r: Row, a: Action)
    requires IsQuiet(a)
    ensures Quiet(r, Write(r, a)) && Direct(a)
  {
  }

  lemma QuietWriteKeeps(wf: Workflow, w: World, a: Action)
    requires WellNamed(wf) && Healthy(wf, w) && IsQuiet(a)
    ensures Healthy(wf, w.(row := Write(w.row, a))) && Direct(a) && w.row.tx.None?
  {
    hide Healthy, Write, Quiet, Inv, WellNamed;
    WritesQuietly(w.row, a);
    QuietKeeps(wf, w, Write(w.row, a));
    HealthyOpen(wf, w);
  }

  lemma HealthyOpen(wf: Workflow, w: World)
    requires Healthy(wf, w)
    ensures OnPath(wf, w.row) && w.row.tx.None?
  {
    InvOnPath(wf, w.base, w.row);
  }

  /** The record is there, or answers the next call; for a transactional activity that is not enough. */
  ghost predicate Placed(wf: Workflow, r: Row, e: Event) {
    var c := wf(Seen(r));
    || HasId(r.history, e.activityId)
    || (!Ends(c) && e.activityId == IdOf(wf, Seen(r)) && Fits(c, e) && !(c.Activity? && c.transactional))
  }

  /** Recording what the workflow is waiting for, or what is recorded already. */
  lemma PlacedAppendKeeps(wf: Workflow, w: World, e: Event)
    requires WellNamed(wf) && Healthy(wf, w) && Placed(wf, w.row, e)
    requires HasId(w.row.history, e.activityId) || e.activityId !in w.row.timers
    ensures Healthy(wf, w.(row := Write(w.row, Append(e))))
  {
    hide WaitsFit, WellNamed, Inv, IdOf, Outcomes, HasId, Outs;
    var r' := Write(w.row, Append(e));
    if HasId(w.row.history, e.activityId) {
      AppendedTwice(w.row.history, e);
      assert r' == w.row;
    } else {
      RecordedKeeps(wf, w.base, w.row, e);
      StatusOpen(wf, w);
      assert forall id :: id in w.row.timers ==> SleepsOn(wf, w.row, id);
      assert w.row.timers == map[];
      FollowsKeeps(wf, w, r');
    }
  }

  lemma AppendedTwice(history: seq<Event>, e: Event)
    requires HasId(history, e.activityId)
    ensures Appended(history, e) == history
  {
  }

  /** At a call that is no transactional activity the workflow has not ended. */
  lemma StatusOpen(wf: Workflow, w: World)
    requires Healthy(wf, w)
    requires var c := wf(Seen(w.row)); !Ends(c) && !(c.Activity? && c.transactional)
    ensures !w.row.status.Completed? && !w.row.status.Failed?
  {
    hide Inv, Outcomes, TimersFit, WaitsFit;
  }

  /** A record that answers no call. */
  lemma AsideAppendKeeps(wf: Workflow, w: World, e: Event)
    requires WellNamed(wf) && Healthy(wf, w) && !IsOutcome(e) && KeepsClear(e)
    ensures Healthy(wf, w.(row := Write(w.row, Append(e))))
  {
    hide WaitsFit, StatusFits, IsOutcome, KeepsClear, OnPath, Registered, WellNamed, HasId, IdOf;
    AppendAside(wf, w.row, e);
    forall id | id in w.row.timers ensures !HasId(Write(w.row, Append(e)).history, id) {
      NextIdIsFree(wf, w.row);
      NextIdIsFree(wf, Write(w.row, Append(e)));
    }
    FollowsKeeps(wf, w, Write(w.row, Append(e)));
  }

  // ---- How executions end ----

  lemma SleepKeeps(wf: Workflow, w: World, id: string, expires: nat)
    requires Healthy(wf, w) && SleepsOn(wf, w.row, id)
    ensures Healthy(wf, w.(row := Write(w.row, PutTimer(id, expires))))
  {
    hide Inv, WaitsFit, IdOf, Outcomes;
    var r' := Write(w.row, PutTimer(id, expires));
    InvOpen(wf, w.base, w.row);
    InvTransfers(wf, w.base, w.row, r');
    assert WaitsFit(wf, r', w.late) by { SameWaits(wf, w.row, r', w.late); }
  }

  lemma SameWaits(wf: Workflow, r: Row, r': Row, late: set<Late>)
    requires WaitsFit(wf, r, late) && r'.history == r.history && r'.subscriptions == r.subscriptions
    ensures WaitsFit(wf, r', late)
  {
  }

  lemma SameTimers(wf: Workflow, r: Row, r': Row, due: map<string, nat>)
    requires TimersFit(wf, r, due) && r'.history == r.history && r'.timers == r.timers
    ensures TimersFit(wf, r', due)
  {
  }

  lemma IdOfNotEmpty(wf: Workflow, seen: seq<Outcome>)
    requires !Ends(wf(seen))
    ensures IdOf(wf, seen) != ""
  {
  }

  lemma WaitKeeps(wf: Workflow, w: World, ch: string, wait: Wait)
    requires Healthy(wf, w) && ReceivesOn(wf, w.row, ch, wait.activityId)
    ensures Healthy(wf, w.(row := Write(w.row, SetWaiting(ch, wait))))
  {
    hide Inv, TimersFit, IdOf, Outcomes, HasId;
    var r' := Write(w.row, SetWaiting(ch, wait));
    InvOpen(wf, w.base, w.row);
    InvTransfers(wf, w.base, w.row, r');
    SameTimers(wf, w.row, r', w.due);
    IdOfNotEmpty(wf, Seen(w.row));
  }

  /** Claiming the end of the workflow, where it ends. */
  lemma ClaimKeeps(wf: Workflow, w: World, r': Row)
    requires Healthy(wf, w) && r' == w.row.(status := r'.status, output := r'.output)
    requires r'.status.Completed? ==> wf(Seen(w.row)) == Return(r'.output)
    requires r'.status.Failed? ==> wf(Seen(w.row)).Fail? || exists m :: FailsUnrecorded(wf, Seen(w.row), m)
    ensures Healthy(wf, w.(row := r'))
  {
    hide Inv, IdOf, Outcomes, HasId;
    InvOpen(wf, w.base, w.row);
    InvTransfers(wf, w.base, w.row, r');
  }

  /** A pass of the rollback, cut anywhere. */
  lemma {:induction false} PassKeeps(
    wf: Workflow, w: World, entries: seq<Compensation>, executed: set<nat>,
    errors: Compensation -> Option<string>, cut: nat)
    requires WellNamed(wf) && Healthy(wf, w) && cut <= |PassActions(entries, executed, errors)|
    ensures var all := PassActions(entries, executed, errors);
            && Healthy(wf, w.(row := After(w.row, all, cut)))
            && Healthy(wf, w.(row := ApplyAll(w.row, all)))
            && OnlyAside(w.row, After(w.row, all, cut)) && OnlyAside(w.row, ApplyAll(w.row, all))
    decreases |entries|
  {
    hide Healthy, ApplyAll, Inv, IsOutcome, Outcomes, HasId, OnlyAside, ResultEvent, Write, After, RecordId;
    HealthyOpen(wf, w);
    AsideReflexive(w.row);
    if entries == [] {
      AfterNone(w.row);
      ApplyNone(w.row);
    } else if entries[0].id in executed {
      assert PassActions(entries, executed, errors) == PassActions(entries[1..], executed, errors);
      PassKeeps(wf, w, entries[1..], executed, errors, cut);
    } else {
      var e := ResultEvent(entries[0], errors(entries[0]));
      var call := Call(RecordId(entries[0].id));
      var rest := PassActions(entries[1..], executed, errors);
      var all := PassActions(entries, executed, errors);
      assert all == [call] + ([Append(e)] + rest);
      var next := w.(row := Write(w.row, Append(e)));
      WritesNothing(w.row, call);
      Walk(w.row, call, [Append(e)] + rest, cut);
      Walk(w.row, Append(e), rest, if cut < 1 then 0 else cut - 1);
      ResultIsAside(entries[0], errors(entries[0]));
      AsideAppendKeeps(wf, w, e);
      AsideOnly(wf, w.row, e);
      PassKeeps(wf, next, entries[1..], executed, errors, if cut < 2 then 0 else cut - 2);
      AsideTransitive(w.row, next.row, ApplyAll(next.row, rest));
      AsideTransitive(w.row, next.row, After(next.row, rest, if cut < 2 then 0 else cut - 2));
    }
  }

  lemma AsideReflexive(r: Row)
    ensures OnlyAside(r, r)
  {
  }

  lemma AsideTransitive(r: Row, r': Row, r'': Row)
    requires OnlyAside(r, r') && OnlyAside(r', r'')
    ensures OnlyAside(r, r'')
  {
  }

  lemma ResultIsAside(entry: Compensation, error: Option<string>)
    ensures var e := ResultEvent(entry, error); !IsOutcome(e) && KeepsClear(e)
  {
  }

  /** Only records that answer no call were added. */
  predicate OnlyAside(r: Row, r': Row) {
    r.history <= r'.history && r' == r.(history := r'.history) && Outcomes(r'.history) == Outcomes(r.history)
  }

  lemma AsideOnly(wf: Workflow, r: Row, e: Event)
    requires OnPath(wf, r) && !IsOutcome(e) && KeepsClear(e)
    ensures OnlyAside(r, Write(r, Append(e)))
  {
    AppendAside(wf, r, e);
  }

  // ---- Executions ----

  /** While a sleep has a timer row, an execution records nothing: it only gets to that sleep. */
  lemma TimerHolds(wf: Workflow, w: World, env: Env, fuel: nat, cut: nat)
    requires WellNamed(wf) && Healthy(wf, w) && w.row.timers != map[]
    requires cut <= |ExecFrom(wf, w.row, 0, env, fuel).actions|
    ensures After(w.row, ExecFrom(wf, w.row, 0, env, fuel).actions, cut).history == w.row.history
  {
    hide ApplyAll, ExecFrom, IdOf, OnPath, Inv, WellNamed;
    HealthyOpen(wf, w);
    var id :| id in w.row.timers;
    assert SleepsOn(wf, w.row, id);
    var actions := ExecFrom(wf, w.row, 0, env, fuel).actions;
    ExecReplays(wf, w.row, 0, env, fuel);
    PassiveApplied(w.row, actions[..cut]);
  }

  lemma KeptFollows(wf: Workflow, base: Row, r: Row, r': Row)
    requires Kept(wf, base, r, r') && (r.timers != map[] ==> r'.history == r.history)
    ensures Follows(r, r')
  {
    hide Inv;
  }

  lemma KeptHealthy(wf: Workflow, w: World, r': Row)
    requires WellNamed(wf) && Healthy(wf, w) && w.row.status.Running? && Kept(wf, w.base, w.row, r')
    requires w.row.timers != map[] ==> r'.history == w.row.history
    ensures Healthy(wf, w.(row := r')) && r'.status.Running? && r'.timers == w.row.timers
  {
    hide Inv, WellNamed, Healthy, Follows;
    KeptFollows(wf, w.base, w.row, r');
    FollowsKeeps(wf, w, r');
  }

  /** The workflow code part of an execution, cut anywhere. */
  lemma PlanKeeps(wf: Workflow, w: World, env: Env, fuel: nat, cut: nat)
    requires WellNamed(wf) && Propagates(wf) && Healthy(wf, w) && w.row.status.Running?
    requires cut <= |ExecFrom(wf, w.row, 0, env, fuel).actions|
    ensures var plan := ExecFrom(wf, w.row, 0, env, fuel);
            var r' := ApplyAll(w.row, plan.actions);
            && Healthy(wf, w.(row := After(w.row, plan.actions, cut)))
            && After(w.row, plan.actions, cut).status.Running?
            && After(w.row, plan.actions, cut).timers == w.row.timers
            && Healthy(wf, w.(row := r')) && r'.status.Running? && r'.timers == w.row.timers
            && EndsAt(wf, r', plan.end, env)
            && Kept(wf, w.base, w.row, After(w.row, plan.actions, cut))
            && Kept(wf, w.base, w.row, r')
  {
    hide ApplyAll, ExecFrom, WellNamed, Propagates, Inv, Kept, EndsAt, Follows;
    var plan := ExecFrom(wf, w.row, 0, env, fuel);
    ExecKeeps(wf, w.base, w.row, 0, env, fuel, cut);
    if w.row.timers != map[] {
      TimerHolds(wf, w, env, fuel, cut);
      TimerHolds(wf, w, env, fuel, |plan.actions|);
      assert plan.actions[..|plan.actions|] == plan.actions;
    }
    KeptHealthy(wf, w, After(w.row, plan.actions, cut));
    KeptHealthy(wf, w, ApplyAll(w.row, plan.actions));
  }

  lemma ReturnKeeps(wf: Workflow, w: World, v: string, worker: string, cut: nat)
    requires WellNamed(wf) && Healthy(wf, w) && wf(Seen(w.row)) == Return(v) && cut <= 3
    ensures Healthy(wf, w.(row := After(w.row, [SetOutput(v), SetStatus(Completed), ReleaseBy(worker)], cut)))
  {
    hide Healthy, WellNamed, ApplyAll, Seen;
    HealthyOpen(wf, w);
    WalkThree(w.row, SetOutput(v), SetStatus(Completed), ReleaseBy(worker), cut);
    var w1 := w.(row := Write(w.row, SetOutput(v)));
    SeenSame(w.row, w1.row);
    ClaimKeeps(wf, w, w1.row);
    ClaimKeeps(wf, w1, Write(w1.row, SetStatus(Completed)));
    var w2 := w.(row := Write(w1.row, SetStatus(Completed)));
    QuietWriteKeeps(wf, w2, ReleaseBy(worker));
  }

  lemma SeenSame(r: Row, r': Row)
    requires r'.history == r.history
    ensures Seen(r') == Seen(r)
  {
  }

  lemma SleepEndKeeps(wf: Workflow, w: World, id: string, at: nat, worker: string, cut: nat)
    requires WellNamed(wf) && Healthy(wf, w) && SleepsOn(wf, w.row, id) && cut <= 3
    ensures Healthy(wf, w.(row := After(w.row, [PutTimer(id, at), SetStatus(WaitingForTimer), ReleaseBy(worker)], cut)))
  {
    hide Healthy, WellNamed, ApplyAll, Write, SleepsOn;
    HealthyOpen(wf, w);
    WalkThree(w.row, PutTimer(id, at), SetStatus(WaitingForTimer), ReleaseBy(worker), cut);
    var w1 := w.(row := Write(w.row, PutTimer(id, at)));
    SleepKeeps(wf, w, id, at);
    QuietWriteKeeps(wf, w1, SetStatus(WaitingForTimer));
    var w2 := w.(row := Write(w1.row, SetStatus(WaitingForTimer)));
    QuietWriteKeeps(wf, w2, ReleaseBy(worker));
  }

  lemma WaitEndKeeps(wf: Workflow, w: World, ch: string, wait: Wait, worker: string, cut: nat)
    requires WellNamed(wf) && Healthy(wf, w) && ReceivesOn(wf, w.row, ch, wait.activityId) && cut <= 3
    ensures Healthy(wf, w.(row := After(w.row,
              [SetWaiting(ch, wait), SetStatus(WaitingForMessage), ReleaseBy(worker)], cut)))
  {
    hide Healthy, WellNamed, ApplyAll, Write, ReceivesOn;
    HealthyOpen(wf, w);
    WalkThree(w.row, SetWaiting(ch, wait), SetStatus(WaitingForMessage), ReleaseBy(worker), cut);
    var w1 := w.(row := Write(w.row, SetWaiting(ch, wait)));
    WaitKeeps(wf, w, ch, wait);
    QuietWriteKeeps(wf, w1, SetStatus(WaitingForMessage));
    var w2 := w.(row := Write(w1.row, SetStatus(WaitingForMessage)));
    QuietWriteKeeps(wf, w2, ReleaseBy(worker));
  }

  lemma FailKeeps(wf: Workflow, w: World, m: string, worker: string, cut: nat)
    requires WellNamed(wf) && Healthy(wf, w) && cut <= 3
    requires wf(Seen(w.row)).Fail? || FailsUnrecorded(wf, Seen(w.row), m)
    ensures Healthy(wf, w.(row := After(w.row,
              [Append(FailureEvent(m)), SetStatus(Failed), ReleaseBy(worker)], cut)))
  {
    hide Healthy, WellNamed, ApplyAll, Seen, FailsUnrecorded, OnPath;
    HealthyOpen(wf, w);
    WalkThree(w.row, Append(FailureEvent(m)), SetStatus(Failed), ReleaseBy(worker), cut);
    var w1 := w.(row := Write(w.row, Append(FailureEvent(m))));
    assert !IsOutcome(FailureEvent(m)) && KeepsClear(FailureEvent(m));
    AsideAppendKeeps(wf, w, FailureEvent(m));
    AppendAside(wf, w.row, FailureEvent(m));
    SeenOutcomes(w.row, w1.row);
    ClaimKeeps(wf, w1, Write(w1.row, SetStatus(Failed)));
    var w2 := w.(row := Write(w1.row, SetStatus(Failed)));
    QuietWriteKeeps(wf, w2, ReleaseBy(worker));
  }

  lemma SeenOutcomes(r: Row, r': Row)
    requires Outcomes(r'.history) == Outcomes(r.history)
    ensures Seen(r') == Seen(r)
  {
  }

  lemma RaiseKeeps(wf: Workflow, w: World, m: string, worker: string, env: Env, cut: nat)
    requires WellNamed(wf) && Healthy(wf, w)
    requires cut <= |Conclusion(w.row, Raised(m), worker, env)|
    requires wf(Seen(w.row)).Fail? || FailsUnrecorded(wf, Seen(w.row), m)
    ensures Healthy(wf, w.(row := After(w.row, Conclusion(w.row, Raised(m), worker, env), cut)))
  {
    hide Healthy, WellNamed, ApplyAll, Seen, FailsUnrecorded, Outcomes, After, ExecutedIds, Lifo, PassActions;
    var first, second :=
      RollbackActions(w.row, env.compensate), [Append(FailureEvent(m)), SetStatus(Failed), ReleaseBy(worker)];
    PassKeeps(wf, w, Lifo(w.row.compensations), ExecutedIds(w.row.history), env.compensate,
      if cut <= |first| then cut else 0);
    CutConcat(w.row, first, second, cut);
    if |first| < cut {
      var w1 := w.(row := ApplyAll(w.row, first));
      SeenOutcomes(w.row, w1.row);
      FailKeeps(wf, w1, m, worker, cut - |first|);
    }
  }

  /** Everything after workflow code has stopped, unless it recurs. */
  lemma ConclusionKeeps(wf: Workflow, w: World, end: End, worker: string, env: Env, cut: nat)
    requires WellNamed(wf) && Healthy(wf, w) && EndsAt(wf, w.row, end, env) && !end.Recurs?
    requires cut <= |Conclusion(w.row, end, worker, env)|
    ensures Healthy(wf, w.(row := After(w.row, Conclusion(w.row, end, worker, env), cut)))
  {
    hide Healthy, WellNamed, ApplyAll, IdOf, Outs, Outcomes, FailsUnrecorded, After, RollbackActions;
    match end
    case Returned(v) => ReturnKeeps(wf, w, v, worker, cut);
    case Raised(m) => RaiseKeeps(wf, w, m, worker, env, cut);
    case SleepsUntil(id, expires) => SleepEndKeeps(wf, w, id, Seconds(expires), worker, cut);
    case WaitsFor(ch, id, t) => WaitEndKeeps(wf, w, ch, Wait(id, StoredTimeout(t)), worker, cut);
    case Exhausted => HealthyOpen(wf, w); AfterNone(w.row);
    case Recurs(_) =>
  }

  // ---- Recurring ----

  /** An iteration begins on the path: nothing is recorded but that it began. */
  lemma IterationBegins(wf: Workflow, w: World)
    requires w.row.tx.None? && w.base == w.row && w.due == map[] && w.late == {}
    requires w.row.history == [] || exists input :: w.row.history == [RecurEvent(input)]
    requires w.row.timers == map[] && (w.row.status.Running? || w.row.status.Recurred?)
    requires w.row.history != [] ==> NoWaits(w.row)
    ensures Healthy(wf, w) <==> FirstWaits(wf, w.row)
  {
    hide Outs, IdOf;
    NoOutcomes(w.row);
    assert Seen(w.row) == [];
    if wf([]).WaitEvent? {
      FirstIdIsText(wf);
    }
    assert w.row.userRows + [] == w.row.userRows;
  }

  lemma FirstIdIsText(wf: Workflow)
    requires !Ends(wf([]))
    ensures IdOf(wf, []) != ""
  {
    RenderHasColon(NameOf(wf([])), Counter(wf, [], NameOf(wf([]))) + 1);
  }

  /**
   * A recurring instance stays on the path wherever it dies, except exactly between the deletion
   * of its history and that of its subscriptions with a wait left over that is not of the call
   * with which the workflow begins.
   */
  lemma RecurKeeps(wf: Workflow, w: World, input: string, worker: string, cut: nat)
    requires WellNamed(wf) && Healthy(wf, w) && wf(Seen(w.row)) == Recur(input) && cut <= 7
    requires w.row.status.Running?
    ensures Healthy(wf, Left(w, RecurActions(input, worker), cut)) <==> (2 <= cut < 4 ==> FirstWaits(wf, w.row))
  {
    hide ApplyAll, WellNamed, Inv, After, OnPath;
    HealthyOpen(wf, w);
    RecurRows(w.row, input, worker, cut);
    var all := RecurActions(input, worker);
    assert w.row.timers == map[] by {
      assert forall id :: id in w.row.timers ==> SleepsOn(wf, w.row, id);
    }
    if cut < 2 {
      assert cut == 1 ==> all[..1] == [all[0]];
      QuietKeeps(wf, w, After(w.row, all, cut));
    } else {
      assert all[..cut][1] == ClearHistory;
      IterationBegins(wf, Left(w, all, cut));
    }
  }

  // ---- Steps ----

  lemma FromTheStart(wf: Workflow, r: Row, env: Env, fuel: nat)
    ensures Exec(wf, [], CacheOf(r.history), env, fuel) == ExecFrom(wf, r, 0, env, fuel)
  {
    assert Outs(Outcomes(r.history))[..0] == [];
  }

  /** Statements in front that delete neither do not matter. */
  lemma CleanSplit(wf: Workflow, r: Row, r': Row, first: seq<Action>, second: seq<Action>, cut: nat)
    requires cut <= |first + second| && ClearHistory !in first && DropSubscriptions !in first
    requires FirstWaits(wf, r) <==> FirstWaits(wf, r')
    ensures CleanCut(wf, r, first + second, cut) <==> (|first| <= cut ==> CleanCut(wf, r', second, cut - |first|))
  {
    if cut < |first| {
      assert (first + second)[..cut] == first[..cut];
    } else {
      assert (first + second)[..cut] == first + second[..cut - |first|];
    }
  }

  lemma CleanWithout(wf: Workflow, r: Row, actions: seq<Action>, cut: nat)
    requires cut <= |actions| && ClearHistory !in actions
    ensures CleanCut(wf, r, actions, cut)
  {
  }

  lemma ConclusionLeaves(wf: Workflow, w: World, end: End, worker: string, env: Env, cut: nat)
    requires WellNamed(wf) && Healthy(wf, w) && EndsAt(wf, w.row, end, env) && w.row.status.Running?
    requires cut <= |Conclusion(w.row, end, worker, env)|
    ensures Healthy(wf, Left(w, Conclusion(w.row, end, worker, env), cut)) <==>
            CleanCut(wf, w.row, Conclusion(w.row, end, worker, env), cut)
  {
    hide WellNamed, Healthy, After, RollbackActions, FirstWaits;
    var all := Conclusion(w.row, end, worker, env);
    if end.Recurs? {
      assert all == RecurActions(end.input, worker);
      RecurCut(wf, w.row, end.input, worker, cut);
      RecurKeeps(wf, w, end.input, worker, cut);
    } else {
      ConclusionClears(w.row, end, worker, env);
      CleanWithout(wf, w.row, all, cut);
      ConclusionKeeps(wf, w, end, worker, env, cut);
      LeftStays(w, all, cut);
    }
  }

  lemma RecurCut(wf: Workflow, r: Row, input: string, worker: string, cut: nat)
    requires cut <= 7
    ensures CleanCut(wf, r, RecurActions(input, worker), cut) <==> (2 <= cut < 4 ==> FirstWaits(wf, r))
  {
    hide FirstWaits;
    var all := RecurActions(input, worker);
    assert 2 <= cut ==> all[..cut][1] == ClearHistory;
    assert 4 <= cut ==> all[..cut][3] == DropSubscriptions;
  }

  lemma KeptFirstWaits(wf: Workflow, base: Row, r: Row, r': Row)
    requires Kept(wf, base, r, r')
    ensures FirstWaits(wf, r) <==> FirstWaits(wf, r')
  {
    hide Inv, IdOf;
  }

  lemma ExecutionKeeps(wf: Workflow, w: World, worker: string, env: Env, fuel: nat, cut: nat)
    requires WellNamed(wf) && Propagates(wf) && Healthy(wf, w) && w.row.status.Running?
    requires cut <= |ExecutionActions(wf, w.row, worker, env, fuel)|
    ensures Healthy(wf, Left(w, ExecutionActions(wf, w.row, worker, env, fuel), cut)) <==>
            CleanCut(wf, w.row, ExecutionActions(wf, w.row, worker, env, fuel), cut)
  {
    hide WellNamed, Propagates, Healthy, After, ApplyAll, Conclusion, Left, CleanCut, EndsAt, Kept, Exec, ExecFrom,
         FirstWaits;
    var plan := Exec(wf, [], CacheOf(w.row.history), env, fuel);
    var r' := ApplyAll(w.row, plan.actions);
    var second := Conclusion(r', plan.end, worker, env);
    FromTheStart(wf, w.row, env, fuel);
    PlanKeeps(wf, w, env, fuel, if cut <= |plan.actions| then cut else 0);
    PlanClearsNothing(wf, w.row, env, fuel);
    LeftConcat(w, plan.actions, second, cut);
    KeptFirstWaits(wf, w.base, w.row, r');
    CleanSplit(wf, w.row, r', plan.actions, second, cut);
    if |plan.actions| <= cut {
      ConclusionLeaves(wf, w.(row := r'), plan.end, worker, env, cut - |plan.actions|);
    }
  }

  lemma ResumeKeeps(wf: Workflow, w: World, worker: string, expires: nat, env: Env, fuel: nat, cut: nat)
    requires WellNamed(wf) && Propagates(wf) && Healthy(wf, w)
    requires cut <= |ResumeActions(wf, w.row, worker, expires, env, fuel)|
    ensures Healthy(wf, Left(w, ResumeActions(wf, w.row, worker, expires, env, fuel), cut)) <==>
            CleanCut(wf, w.row, ResumeActions(wf, w.row, worker, expires, env, fuel), cut)
  {
    hide WellNamed, Propagates, Healthy, After, ApplyAll, ExecutionActions, Left, CleanCut;
    var first := [Acquire(worker, expires), SetStatus(Running)];
    var started := Started(w.row, worker, expires);
    var second := ExecutionActions(wf, started, worker, env, fuel);
    HealthyOpen(wf, w);
    WalkTwo(w.row, first[0], first[1], if cut <= 2 then cut else 0);
    QuietWriteKeeps(wf, w, first[0]);
    QuietWriteKeeps(wf, w.(row := Write(w.row, first[0])), first[1]);
    LeftConcat(w, first, second, cut);
    CleanSplit(wf, w.row, started, first, second, cut);
    if 2 <= cut {
      ExecutionKeeps(wf, w.(row := started), worker, env, fuel, cut - 2);
    }
  }

  lemma CleaningKeeps(wf: Workflow, w: World, step: Step, cut: nat)
    requires WellNamed(wf) && Propagates(wf) && Healthy(wf, w) && step.Cleaning? && cut <= |Actions(wf, w, step)|
    ensures Healthy(wf, Next(wf, w, step, cut)) <==> Clean(wf, w, step, cut)
  {
    hide WellNamed, Propagates, Healthy, After, ApplyAll, ResumeActions, Left, CleanCut;
    var all := Actions(wf, w, step);
    HealthyOpen(wf, w);
    if !Acts(w, step) {
      LeftNothing(w);
      CleanWithout(wf, w.row, all, cut);
    } else {
      var r' := w.row.(lock := Unlocked);
      var second := if step.listed && Resumable(w.row.status)
        then ResumeActions(wf, r', step.worker, step.expires, step.env, step.fuel) else [];
      Walk(w.row, BreakLock, [], if cut == 0 then 0 else 1);
      assert [BreakLock] + [] == [BreakLock];
      ApplyNone(r');
      AfterNone(r');
      QuietWriteKeeps(wf, w, BreakLock);
      LeftConcat(w, [BreakLock], second, cut);
      LeftNothing(w.(row := r'));
      CleanSplit(wf, w.row, r', [BreakLock], second, cut);
      if second == [] {
        CleanWithout(wf, r', second, if cut == 0 then 0 else cut - 1);
      } else if 1 <= cut {
        ResumeKeeps(wf, w.(row := r'), step.worker, step.expires, step.env, step.fuel, cut - 1);
      }
    }
  }

  lemma FiringKeeps(wf: Workflow, w: World, step: Step, cut: nat)
    requires WellNamed(wf) && Healthy(wf, w) && step.Firing? && cut <= |Actions(wf, w, step)|
    requires 3 <= cut ==> Placed(wf, w.row, TimerEvent(step.id))
    ensures Healthy(wf, Next(wf, w, step, cut))
  {
    hide WellNamed, Healthy, After, ApplyAll, Left, Placed;
    HealthyOpen(wf, w);
    if !Acts(w, step) {
      LeftNothing(w);
    } else {
      var a, b, c := Acquire(step.worker, step.expires), DropTimer(step.id), Append(TimerEvent(step.id));
      LeftStays(w, [a, b, c], cut);
      WalkThree(w.row, a, b, c, cut);
      QuietWriteKeeps(wf, w, a);
      var w1 := w.(row := Write(w.row, a));
      QuietWriteKeeps(wf, w1, b);
      var w2 := w.(row := Write(w1.row, b));
      if 3 <= cut {
        PlacedAlike(wf, w.row, w2.row, TimerEvent(step.id));
        PlacedAppendKeeps(wf, w2, TimerEvent(step.id));
      }
    }
  }

  lemma PlacedAlike(wf: Workflow, r: Row, r': Row, e: Event)
    requires r'.history == r.history
    ensures Placed(wf, r, e) <==> Placed(wf, r', e)
  {
  }

  /** Acquire, record an answer, stop waiting, run, release: deliveries and timeouts. */
  lemma AnswerKeeps(wf: Workflow, w: World, worker: string, expires: nat, e: Event, ch: string, cut: nat)
    requires WellNamed(wf) && Healthy(wf, w) && cut <= 5
    requires var locked := w.(row := Write(w.row, Acquire(worker, expires)));
             2 <= cut && Healthy(wf, locked) ==> Healthy(wf, w.(row := Write(locked.row, Append(e))))
    ensures var all := [Acquire(worker, expires), Append(e), ClearWaiting(ch), SetStatus(Running), ReleaseBy(worker)];
            Healthy(wf, Left(w, all, cut))
  {
    hide WellNamed, Healthy, After, ApplyAll, Left, Write;
    var first, second := [Acquire(worker, expires), Append(e)], [ClearWaiting(ch), SetStatus(Running), ReleaseBy(worker)];
    var all := [Acquire(worker, expires), Append(e), ClearWaiting(ch), SetStatus(Running), ReleaseBy(worker)];
    assert all == first + second;
    HealthyOpen(wf, w);
    LeftStays(w, all, cut);
    WalkTwo(w.row, first[0], first[1], if cut <= 2 then cut else 2);
    CutConcat(w.row, first, second, cut);
    QuietWriteKeeps(wf, w, first[0]);
    if 2 <= cut {
      var w2 := w.(row := ApplyAll(w.row, first));
      WalkThree(w2.row, second[0], second[1], second[2], cut - 2);
      QuietWriteKeeps(wf, w2, second[0]);
      var w3 := w.(row := Write(w2.row, second[0]));
      QuietWriteKeeps(wf, w3, second[1]);
      QuietWriteKeeps(wf, w.(row := Write(w3.row, second[1])), second[2]);
    }
  }

  /** An answer to a wait is recorded already, or answers the next call. */
  lemma WaitPlaced(wf: Workflow, w: World, ch: string, e: Event)
    requires Healthy(wf, w) && (e.kind.ChannelMessageReceived? || e.kind.MessageTimeout?)
    requires HasId(w.row.history, e.activityId) || ReceivesOn(wf, w.row, ch, e.activityId)
    ensures Placed(wf, w.row, e) && (HasId(w.row.history, e.activityId) || e.activityId !in w.row.timers)
  {
    hide Inv, StatusFits, IdOf, HasId;
    if !HasId(w.row.history, e.activityId) {
      assert e.activityId in w.row.timers ==> SleepsOn(wf, w.row, e.activityId);
    }
  }

  lemma DeliveredFits(wf: Workflow, w: World, ch: string, message: nat, text: string)
    requires WellNamed(wf) && Healthy(wf, w) && ch in w.row.subscriptions
    ensures Healthy(wf, w.(row := Write(w.row, Append(DeliveryEvent(w.row, ch, message, text)))))
  {
    hide WellNamed, Inv, TimersFit, StatusFits, ReceivesOn, HasId;
    var e := DeliveryEvent(w.row, ch, message, text);
    if w.row.subscriptions[ch].Some? {
      WaitPlaced(wf, w, ch, e);
      PlacedAppendKeeps(wf, w, e);
    } else {
      assert e.activityId == "channel:" + (ch + ":" + Decimal(message));
      AsideAppendKeeps(wf, w, e);
    }
  }

  lemma DeliveringKeeps(wf: Workflow, w: World, step: Step, cut: nat)
    requires WellNamed(wf) && Healthy(wf, w) && step.Delivering? && cut <= |Actions(wf, w, step)|
    ensures Healthy(wf, Next(wf, w, step, cut))
  {
    hide WellNamed, Healthy, After, ApplyAll, Left;
    HealthyOpen(wf, w);
    var acquire := Acquire(step.worker, step.expires);
    var locked := w.(row := Write(w.row, acquire));
    if !Acts(w, step) {
      LeftNothing(w);
    } else if step.channel !in w.row.subscriptions
              || HasId(w.row.history, DeliveryId(w.row, step.channel, step.message)) {
      var release := ReleaseBy(step.worker);
      LeftStays(w, [acquire, release], cut);
      WalkTwo(w.row, acquire, release, cut);
      QuietWriteKeeps(wf, w, acquire);
      QuietWriteKeeps(wf, locked, release);
    } else {
      if Healthy(wf, locked) {
        DeliveredFits(wf, locked, step.channel, step.message, step.text);
      }
      AnswerKeeps(wf, w, step.worker, step.expires,
        DeliveryEvent(w.row, step.channel, step.message, step.text), step.channel, cut);
    }
  }

  lemma TimingOutKeeps(wf: Workflow, w: World, step: Step, cut: nat)
    requires WellNamed(wf) && Healthy(wf, w) && step.TimingOut? && cut <= |Actions(wf, w, step)|
    requires 2 <= cut ==> Placed(wf, w.row, Event(step.id, MessageTimeout, Json(step.text)))
    ensures Healthy(wf, Next(wf, w, step, cut))
  {
    hide WellNamed, Healthy, After, ApplyAll, Left, Placed;
    HealthyOpen(wf, w);
    if !Acts(w, step) {
      LeftNothing(w);
    } else {
      var e := Event(step.id, MessageTimeout, Json(step.text));
      var locked := w.(row := Write(w.row, Acquire(step.worker, step.expires)));
      if 2 <= cut && Healthy(wf, locked) {
        PlacedAlike(wf, w.row, locked.row, e);
        TimeoutClear(wf, locked, e);
        PlacedAppendKeeps(wf, locked, e);
      }
      AnswerKeeps(wf, w, step.worker, step.expires, e, step.channel, cut);
    }
  }

  /** A timeout that answers the next call answers a receive, and then no timer is left. */
  lemma TimeoutClear(wf: Workflow, w: World, e: Event)
    requires Healthy(wf, w) && e.kind.MessageTimeout? && Placed(wf, w.row, e)
    ensures HasId(w.row.history, e.activityId) || e.activityId !in w.row.timers
  {
    hide Inv, StatusFits, IdOf, HasId, WaitsFit;
    assert e.activityId in w.row.timers ==> SleepsOn(wf, w.row, e.activityId);
  }

  lemma RestartingKeeps(wf: Workflow, w: World, step: Step, cut: nat)
    requires WellNamed(wf) && Healthy(wf, w) && step.Restarting? && cut <= |Actions(wf, w, step)|
    ensures Healthy(wf, Next(wf, w, step, cut))
  {
    hide WellNamed, Healthy, After, ApplyAll, Left, Write;
    HealthyOpen(wf, w);
    if !Acts(w, step) {
      LeftNothing(w);
    } else {
      var a, b, c := Acquire(step.worker, step.expires), SetStatus(Running), ReleaseBy(step.worker);
      LeftStays(w, [a, b, c], cut);
      WalkThree(w.row, a, b, c, cut);
      QuietWriteKeeps(wf, w, a);
      var w1 := w.(row := Write(w.row, a));
      QuietWriteKeeps(wf, w1, b);
      QuietWriteKeeps(wf, w.(row := Write(w1.row, b)), c);
    }
  }

  lemma CancelEndKeeps(wf: Workflow, w: World, worker: string, cut: nat)
    requires WellNamed(wf) && Healthy(wf, w) && cut <= |CancelEnd(w.row.status, worker)|
    ensures Healthy(wf, w.(row := After(w.row, CancelEnd(w.row.status, worker), cut)))
  {
    hide WellNamed, Healthy, After, ApplyAll, Write;
    HealthyOpen(wf, w);
    if Terminal(w.row.status) {
      assert [ReleaseBy(worker)] == [ReleaseBy(worker)] + [];
      Walk(w.row, ReleaseBy(worker), [], cut);
      AfterNone(Write(w.row, ReleaseBy(worker)));
      QuietWriteKeeps(wf, w, ReleaseBy(worker));
    } else {
      WalkTwo(w.row, SetStatus(Cancelled), ReleaseBy(worker), cut);
      QuietWriteKeeps(wf, w, SetStatus(Cancelled));
      QuietWriteKeeps(wf, w.(row := Write(w.row, SetStatus(Cancelled))), ReleaseBy(worker));
    }
  }

  lemma CancellingKeeps(wf: Workflow, w: World, step: Step, cut: nat)
    requires WellNamed(wf) && Healthy(wf, w) && step.Cancelling? && cut <= |Actions(wf, w, step)|
    ensures Healthy(wf, Next(wf, w, step, cut))
  {
    hide WellNamed, Healthy, After, ApplyAll, Left, PassActions, Lifo, ExecutedIds, Outcomes, CancelEnd;
    HealthyOpen(wf, w);
    if !Acts(w, step) || Terminal(step.seen) {
      LeftNothing(w);
    } else {
      var acquire := Acquire(step.worker, step.expires);
      var locked := w.(row := Write(w.row, acquire));
      var rollback := RollbackActions(w.row, step.errors);
      var rest := CancelEnd(w.row.status, step.worker);
      var all := Actions(wf, w, step);
      CancelShape(wf, w, step);
      assert all == [acquire] + (rollback + rest);
      CancelClearsNothing(w.row, step.errors, step.worker);
      LeftStays(w, all, cut);
      Walk(w.row, acquire, rollback + rest, cut);
      QuietWriteKeeps(wf, w, acquire);
      if 1 <= cut {
        CutConcat(locked.row, rollback, rest, cut - 1);
        PassKeeps(wf, locked, Lifo(w.row.compensations), ExecutedIds(w.row.history), step.errors,
          if cut - 1 <= |rollback| then cut - 1 else 0);
        var done := w.(row := ApplyAll(locked.row, rollback));
        CancelEndSame(w.row, done.row, step.worker);
        if |rollback| < cut - 1 {
          CancelEndKeeps(wf, done, step.worker, cut - 1 - |rollback|);
        }
      }
    }
  }

  lemma CancelEndSame(r: Row, r': Row, worker: string)
    requires r'.status == r.status
    ensures CancelEnd(r'.status, worker) == CancelEnd(r.status, worker)
  {
  }

  lemma PollingKeeps(wf: Workflow, w: World)
    requires Healthy(wf, w)
    ensures Healthy(wf, Next(wf, w, Polling, 0))
  {
    hide Inv, StatusFits, SleepsOn, ReceivesOn, HasId;
  }

  /** What a step records by itself answers the next call, and only the first call's wait is left over. */
  ghost predicate InOrder(wf: Workflow, w: World, step: Step, cut: nat) {
    && (step.Firing? && Acts(w, step) && 3 <= cut ==> Placed(wf, w.row, TimerEvent(step.id)))
    && (step.TimingOut? && Acts(w, step) && 2 <= cut ==> Placed(wf, w.row, Event(step.id, MessageTimeout, Json(step.text))))
    && Clean(wf, w, step, cut)
  }

  /** Every step in order keeps the invariant, wherever it dies. */
  lemma StepKeeps(wf: Workflow, w: World, step: Step, cut: nat)
    requires WellNamed(wf) && Propagates(wf) && Healthy(wf, w) && InOrder(wf, w, step, cut)
    ensures Healthy(wf, Next(wf, w, step, cut))
  {
    hide WellNamed, Propagates, Healthy, After, ApplyAll, ResumeActions, HandlerActions, Left, Placed, CleanCut;
    ClipTwice(wf, w, step, cut);
    var k := Clip(cut, Actions(wf, w, step));
    match step
    case Resuming(worker, expires, env, fuel) =>
      if Acts(w, step) {
        ResumeKeeps(wf, w, worker, expires, env, fuel, k);
      } else {
        HealthyOpen(wf, w);
        LeftNothing(w);
      }
    case Cleaning(_, _, _, _, _) => CleaningKeeps(wf, w, step, k);
    case Firing(_, _, _) =>
      if !Acts(w, step) { NothingOffered(wf, w, step); }
      FiringKeeps(wf, w, step, k);
    case Delivering(_, _, _, _, _) => DeliveringKeeps(wf, w, step, k);
    case TimingOut(_, _, _, _, _) =>
      if !Acts(w, step) { NothingOffered(wf, w, step); }
      TimingOutKeeps(wf, w, step, k);
    case Restarting(_, _) => RestartingKeeps(wf, w, step, k);
    case Cancelling(_, _, _, _) => CancellingKeeps(wf, w, step, k);
    case Polling => PollingKeeps(wf, w);
    case Passing(_) => PassingKeeps(wf, w, step);
  }

  lemma NothingOffered(wf: Workflow, w: World, step: Step)
    requires !Acts(w, step)
    ensures Actions(wf, w, step) == []
  {
  }

  lemma PassingKeeps(wf: Workflow, w: World, step: Step)
    requires Healthy(wf, w) && step.Passing?
    ensures Healthy(wf, Next(wf, w, step, 0))
  {
  }
}
