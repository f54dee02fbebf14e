/**
 * One execution of a workflow over its history, and what any number of them, cut short
 * anywhere, leave behind.
 */
module Replay {
  import opened Prelude
  import opened ActivityIds
  import opened Clock
  import opened Tables
  import opened Workflows

  /** What an execution meets outside the tables; every execution meets its own. */
  datatype Env = Env(
    now: nat,                             // the Go clock, in nanoseconds
    invoke: string -> Outcome,            // what an activity's attempts end in, by activity id
    pending: string -> Option<string>,    // a message already waiting for a receive, by activity id
    compensate: Compensation -> Option<string>)  // what running a compensation fails with

  datatype End =
    | Returned(value: string)
    | Raised(message: string)
    | Recurs(input: string)
    | SleepsUntil(id: string, expires: nat)
    | WaitsFor(channel: string, id: string, timeoutAt: Option<nat>)
    | Exhausted

  datatype Plan = Plan(actions: seq<Action>, end: End)

  function ActivityEvent(id: string, o: Outcome): Event {
    match o
    case Ok(v) => Event(id, ActivityCompleted, Json(v))
    case Err(m) => Event(id, ActivityFailed, Json(m))
  }

  /** executeInTransaction: everything between Begin and Commit is one database transaction. */
  function InTransaction(c: Call, id: string, env: Env): seq<Action>
    requires c.Activity?
  {
    var o := env.invoke(id);
    [Begin, Call(id), UserWrite(id), Append(ActivityEvent(id, o))] +
    if o.Err? then [Rollback, See(id, o)]
    else (if c.compensated then [AddCompensation(id, c.name, Millis(env.now))] else []) + [Commit, See(id, o)]
  }

  /** executeWithoutTransaction: each statement stands on its own. */
  function WithoutTransaction(c: Call, id: string, env: Env): seq<Action>
    requires c.Activity?
  {
    var o := env.invoke(id);
    [Call(id), Append(ActivityEvent(id, o))] +
    (if o.Ok? && c.compensated then [AddCompensation(id, c.name, Millis(env.now))] else []) + [See(id, o)]
  }

  /** A call whose id is not in the cache and that does not suspend. */
  function Perform(c: Call, id: string, env: Env): seq<Action>
    requires c.Activity? || (c.WaitEvent? && env.pending(id).Some?)
  {
    match c
    case Activity(_, transactional, _) =>
      if transactional then InTransaction(c, id, env) else WithoutTransaction(c, id, env)
    case WaitEvent(_, _) =>
      var o := Ok(env.pending(id).value);
      [Append(ActivityEvent(id, o)), See(id, o)]
  }

  function PerformedOutcome(c: Call, id: string, env: Env): Outcome
    requires c.Activity? || (c.WaitEvent? && env.pending(id).Some?)
  {
    if c.Activity? then env.invoke(id) else Ok(env.pending(id).value)
  }

  function Ending(c: Call): End
    requires Ends(c)
  {
    match c
    case Return(v) => Returned(v)
    case Fail(m) => Raised(m)
    case Recur(input) => Recurs(input)
  }

  /** A sleep, or a receive for which no message is waiting. */
  predicate Suspends(c: Call, id: string, env: Env) {
    c.Sleep? || (c.WaitEvent? && env.pending(id).None?)
  }

  function Suspension(c: Call, id: string, env: Env): End
    requires c.Sleep? || c.WaitEvent?
  {
    match c
    case Sleep(duration) => SleepsUntil(id, env.now + duration)
    case WaitEvent(channel, timeout) =>
      WaitsFor(channel, id, if timeout.None? then None else Some(env.now + timeout.value))
  }

  /** What a call does before it consults the cache. */
  function Preparation(c: Call): seq<Action> {
    if c.WaitEvent? then [Subscribe(c.channel)] else []
  }

  /**
   * At most `fuel` calls of one execution that has already seen `seen`.  Cached calls are
   * answered from the cache; a new outcome is recorded and cached.
   */
  function Exec(wf: Workflow, seen: seq<Outcome>, cache: map<string, Outcome>, env: Env, fuel: nat): Plan
    decreases fuel
  {
    if fuel == 0 then Plan([], Exhausted)
    else
      var c := wf(seen);
      if Ends(c) then Plan([], Ending(c))
      else
        var id := IdOf(wf, seen);
        if id in cache then
          var o := CachedOutcome(c, cache[id]);
          var rest := Exec(wf, seen + [o], cache, env, fuel - 1);
          Plan(Preparation(c) + [See(id, o)] + rest.actions, rest.end)
        else if Suspends(c, id, env) then
          Plan(Preparation(c), Suspension(c, id, env))
        else
          var o := PerformedOutcome(c, id, env);
          var rest := Exec(wf, seen + [o], cache[id := o], env, fuel - 1);
          Plan(Preparation(c) + Perform(c, id, env) + rest.actions, rest.end)
  }

  /** What one call comes to: its statements, its outcome unless it suspends, the cache after it. */
  datatype Turn = Turn(actions: seq<Action>, outcome: Option<Outcome>, cache: map<string, Outcome>)

  function TurnOf(wf: Workflow, seen: seq<Outcome>, cache: map<string, Outcome>, env: Env): Turn
    requires !Ends(wf(seen))
  {
    var c, id := wf(seen), IdOf(wf, seen);
    if id in cache then
      Turn(Preparation(c) + [See(id, CachedOutcome(c, cache[id]))], Some(CachedOutcome(c, cache[id])), cache)
    else if Suspends(c, id, env) then Turn(Preparation(c), None, cache)
    else
      var o := PerformedOutcome(c, id, env);
      Turn(Preparation(c) + Perform(c, id, env), Some(o), cache[id := o])
  }

  lemma ExecStep(wf: Workflow, seen: seq<Outcome>, cache: map<string, Outcome>, env: Env, fuel: nat)
    ensures var plan := Exec(wf, seen, cache, env, fuel);
            if fuel == 0 then plan == Plan([], Exhausted)
            else if Ends(wf(seen)) then plan == Plan([], Ending(wf(seen)))
            else
              var turn := TurnOf(wf, seen, cache, env);
              if turn.outcome.None? then
                Suspends(wf(seen), IdOf(wf, seen), env)
                && plan == Plan(turn.actions, Suspension(wf(seen), IdOf(wf, seen), env))
              else
                var rest := Exec(wf, seen + [turn.outcome.value], turn.cache, env, fuel - 1);
                plan == Plan(turn.actions + rest.actions, rest.end)
  {
  }

  /** The outcome of a transaction that was rolled back: the workflow sees it, no table keeps it. */
  predicate Unrecorded(c: Call, o: Outcome) {
    c.Activity? && c.transactional && o.Err?
  }

  // ---- Assumptions on workflow code ----

  /** A name under which no record of the engine's own can appear. */
  predicate Unreserved(name: string) {
    name != "compensation" && !Unclaimed(name + ":")
  }

  /** Its activities keep clear of the ids the engine reserves for records of its own. */
  ghost predicate WellNamed(wf: Workflow) {
    forall seen :: wf(seen).Activity? ==> Unreserved(wf(seen).name)
  }

  /** An error of a transactional activity, which is not recorded, is passed on. */
  ghost predicate Propagates(wf: Workflow) {
    forall seen, m :: wf(seen).Activity? && wf(seen).transactional ==> wf(seen + [Err(m)]).Fail?
  }

  // ---- The invariant ----

  /** Records that answer no call carry ids no call can have. */
  predicate KeepsClear(e: Event) {
    match e.kind
    case CompensationExecuted =>
      e.data.CompensationResult? && e.activityId == Render("compensation", e.data.compensationId)
    case CompensationFailed =>
      e.data.CompensationResult? && e.activityId == Render("compensation", e.data.compensationId)
    case WorkflowFailed => e.activityId == ""
    case _ => true
  }

  /** The history is the beginning of an uninterrupted run, plus records that answer no call. */
  ghost predicate OnPath(wf: Workflow, r: Row) {
    && r.tx.None?
    && UniqueIds(r.history)
    && (forall i :: 0 <= i < |r.history| ==> KeepsClear(r.history[i]))
    && IsRun(wf, Outcomes(r.history))
  }

  /** A record that does not answer a call leaves the path alone. */
  lemma AppendAside(wf: Workflow, r: Row, e: Event)
    requires OnPath(wf, r) && !IsOutcome(e) && KeepsClear(e)
    ensures OnPath(wf, r.(history := Appended(r.history, e)))
    ensures Outcomes(Appended(r.history, e)) == Outcomes(r.history)
  {
    FilterSnoc(r.history, e, IsOutcome);
    assert Outcomes(r.history) + [] == Outcomes(r.history);
  }

  lemma UnreservedIsClaimed(name: string, n: nat)
    requires Unreserved(name)
    ensures !Unclaimed(Render(name, n))
  {
    DecimalHasNoColon(n);
    var id := Render(name, n);
    assert id == (name + ":") + Decimal(n);
    assert |name| < 7 && 8 <= |id| ==> id[7] == Decimal(n)[7 - |name| - 1];
    assert 7 <= |name| ==> (name + ":")[..8] == id[..8];
  }

  /** An id that a record keeps clear of is no call's id. */
  lemma ClearIdsDiffer(e: Event, name: string, n: nat)
    requires KeepsClear(e) && !IsOutcome(e) && Unreserved(name)
    ensures e.activityId != Render(name, n)
  {
    RenderHasColon(name, n);
    UnreservedIsClaimed(name, n);
    assert ':' !in "recur" && ':' !in "";
    if e.kind.CompensationExecuted? || e.kind.CompensationFailed? {
      if e.activityId == Render(name, n) {
        RenderInjective("compensation", e.data.compensationId, name, n);
      }
    }
  }

  /** The next call's id is not in the history at all. */
  lemma NextIdIsFree(wf: Workflow, r: Row)
    requires WellNamed(wf) && OnPath(wf, r)
    requires var seen := Outs(Outcomes(r.history)); !Ends(wf(seen))
    ensures !HasId(r.history, IdOf(wf, Outs(Outcomes(r.history))))
    ensures IdOf(wf, Outs(Outcomes(r.history))) != "recur"
    ensures !Unclaimed(IdOf(wf, Outs(Outcomes(r.history))))
  {
    var records := Outcomes(r.history);
    var name := NameOf(wf(Outs(records)));
    var n := Counter(wf, Outs(records), name) + 1;
    RenderHasColon(name, n);
    assert ':' !in "recur";
    assert Unreserved(name) by {
      assert wf(Outs(records)).Sleep? ==> name[0] == 's';
      assert wf(Outs(records)).WaitEvent? ==> name[0] == 'r';
      assert "compensation"[0] == 'c' && "channel:"[0] == 'c';
    }
    UnreservedIsClaimed(name, n);
    FilterMembers(r.history, IsOutcome);
    forall i | 0 <= i < |r.history| ensures r.history[i].activityId != Render(name, n) {
      var e := r.history[i];
      if IsOutcome(e) {
        assert e in records;
        var j :| 0 <= j < |records| && records[j] == e;
        NextIdIsNew(wf, records, j);
      } else {
        ClearIdsDiffer(e, name, n);
      }
    }
  }

  /** Appending the answer to the next call continues the path and the cache. */
  lemma AppendNext(wf: Workflow, r: Row, e: Event)
    requires WellNamed(wf) && OnPath(wf, r)
    requires var seen := Outs(Outcomes(r.history));
             !Ends(wf(seen)) && e.activityId == IdOf(wf, seen) && Fits(wf(seen), e)
    ensures OnPath(wf, r.(history := Appended(r.history, e)))
    ensures Appended(r.history, e) == r.history + [e]
    ensures Outcomes(r.history + [e]) == Outcomes(r.history) + [e]
    ensures Outs(Outcomes(r.history + [e])) == Outs(Outcomes(r.history)) + [OutcomeOf(e)]
    ensures CacheOf(r.history + [e]) == CacheOf(r.history)[e.activityId := OutcomeOf(e)]
  {
    hide IdOf, Fits, Filter, IsRun, CacheOf, KeepsClear, Outs, UniqueIds, IsOutcome, WellNamed;
    var records := Outcomes(r.history);
    NextIdIsFree(wf, r);
    FittingIsOutcome(wf(Outs(records)), e);
    FilterSnoc(r.history, e, IsOutcome);
    RunSnoc(wf, records, e);
    CacheSnoc(r.history, e);
    assert Appended(r.history, e) == r.history + [e];
    assert Outs(records + [e]) == Outs(records) + [OutcomeOf(e)];
  }

  /** What answers a call is an outcome, unless its id says that it is none. */
  lemma FittingIsOutcome(c: Call, e: Event)
    requires Fits(c, e)
    ensures KeepsClear(e) && Cacheable(e) && (IsOutcome(e) <==> e.activityId != "recur" && !Unclaimed(e.activityId))
  {
  }

  /** The cache answers a call exactly when the call lies within the recorded path. */
  lemma CacheAnswers(wf: Workflow, r: Row, j: nat)
    requires WellNamed(wf) && OnPath(wf, r)
    requires j <= |Outcomes(r.history)|
    requires !Ends(wf(Outs(Outcomes(r.history))[..j]))
    ensures var records, id := Outcomes(r.history), IdOf(wf, Outs(Outcomes(r.history))[..j]);
            && (id in CacheOf(r.history) <==> j < |records|)
            && (j < |records| ==>
                  && Fits(wf(Outs(records)[..j]), records[j])
                  && CacheOf(r.history)[id] == OutcomeOf(records[j]))
  {
    var records := Outcomes(r.history);
    CacheIsHistory(r.history);
    if j < |records| {
      assert Answers(wf, records, j);
      FilterMembers(r.history, IsOutcome);
      assert records[j] in r.history;
    } else {
      assert Outs(records)[..j] == Outs(records);
      NextIdIsFree(wf, r);
    }
  }

  // ---- Activities: all or nothing ----

  /** Inside a transaction, statements on the tables only fill the buffer. */
  lemma {:induction false} BufferingOnly(r: Row, actions: seq<Action>)
    requires forall i :: 0 <= i < |actions| ==> Buffered(actions[i]) || actions[i].Call?
    ensures ApplyAll(r.(tx := Some([])), actions) == r.(tx := Some(Filter(actions, Buffered)))
  {
    if actions != [] {
      var init, a := actions[..|actions| - 1], actions[|actions| - 1];
      BufferingOnly(r, init);
      assert actions == init + [a];
      FilterSnoc(init, a, Buffered);
      if !Buffered(a) {
        assert Filter(actions, Buffered) == Filter(init, Buffered);
      }
    }
  }

  /** What a successful activity's transaction leaves in the tables. */
  function Committed(r: Row, c: Call, id: string, e: Event, env: Env): Row
    requires c.Activity?
  {
    var r' := r.(history := Appended(r.history, e), userRows := r.userRows + [id]);
    if c.compensated then Write(r', AddCompensation(id, c.name, Millis(env.now))) else r'
  }

  /** The statements of an activity's transaction between Begin and its end. */
  function Statements(c: Call, id: string, env: Env): seq<Action>
    requires c.Activity?
  {
    [Call(id), UserWrite(id), Append(ActivityEvent(id, env.invoke(id)))] +
    if env.invoke(id).Ok? && c.compensated then [AddCompensation(id, c.name, Millis(env.now))] else []
  }

  lemma StatementsBuffered(c: Call, id: string, env: Env)
    requires c.Activity?
    ensures Filter(Statements(c, id, env), Buffered) == Statements(c, id, env)[1..]
  {
    var all := Statements(c, id, env);
    assert all == [Call(id)] + all[1..];
    FilterConcat([Call(id)], all[1..], Buffered);
    FilterAll(all[1..], Buffered);
    FilterSnoc([], Call(id), Buffered);
    assert [] + [Call(id)] == [Call(id)];
  }

  lemma StatementsCommitted(r: Row, c: Call, id: string, env: Env)
    requires c.Activity? && env.invoke(id).Ok?
    ensures WriteAll(r, Statements(c, id, env)[1..]) ==
            Committed(r, c, id, ActivityEvent(id, env.invoke(id)), env)
  {
    var first := [UserWrite(id)];
    var second := first + [Append(ActivityEvent(id, env.invoke(id)))];
    WriteSnoc(r, [], UserWrite(id));
    assert [] + [UserWrite(id)] == first;
    WriteSnoc(r, first, Append(ActivityEvent(id, env.invoke(id))));
    if c.compensated {
      WriteSnoc(r, second, AddCompensation(id, c.name, Millis(env.now)));
      assert Statements(c, id, env)[1..] == second + [AddCompensation(id, c.name, Millis(env.now))];
    } else {
      assert Statements(c, id, env)[1..] == second;
    }
  }

  /** Before its Commit or Rollback a transaction shows nothing. */
  lemma OpenTransactionHides(r: Row, c: Call, id: string, env: Env, cut: nat)
    requires c.Activity? && r.tx.None? && cut <= 1 + |Statements(c, id, env)|
    ensures After(r, [Begin] + Statements(c, id, env), cut) == r
    ensures ApplyAll(r, [Begin] + Statements(c, id, env)) ==
            r.(tx := Some(Filter(Statements(c, id, env), Buffered)))
  {
    var all := Statements(c, id, env);
    ApplyCons(r, Begin, all);
    BufferingOnly(r, all);
    if cut > 0 {
      assert ([Begin] + all)[..cut] == [Begin] + all[..cut - 1];
      ApplyCons(r, Begin, all[..cut - 1]);
      BufferingOnly(r, all[..cut - 1]);
    }
  }

  lemma TransactionShape(c: Call, id: string, env: Env)
    requires c.Activity?
    ensures InTransaction(c, id, env) ==
            ([Begin] + Statements(c, id, env)) +
            [if env.invoke(id).Ok? then Commit else Rollback, See(id, env.invoke(id))]
  {
  }

  lemma ClosingTransaction(r: Row, c: Call, id: string, env: Env)
    requires c.Activity? && r.tx.None?
    ensures var o := env.invoke(id);
            Apply(r.(tx := Some(Filter(Statements(c, id, env), Buffered))), if o.Ok? then Commit else Rollback)
            == if o.Ok? then Committed(r, c, id, ActivityEvent(id, o), env) else r
    ensures Committed(r, c, id, ActivityEvent(id, env.invoke(id)), env).tx.None?
  {
    hide ApplyAll, WriteAll, Filter;
    StatementsBuffered(c, id, env);
    if env.invoke(id).Ok? {
      StatementsCommitted(r, c, id, env);
    }
  }

  lemma SeeIsSilent(r: Row, id: string, o: Outcome)
    ensures Apply(r, See(id, o)) == r
  {
  }

  lemma PairAtTheEnd(r: Row, a: Action, b: Action, cut: nat)
    requires cut <= 2
    ensures After(r, [a, b], cut) ==
            Crash(if cut == 0 then r else if cut == 1 then Apply(r, a) else Apply(Apply(r, a), b))
    ensures ApplyAll(r, [a, b]) == Apply(Apply(r, a), b)
  {
    hide Apply, ApplyAll;
    PrefixOfTwo(r, a, b, cut);
  }

  /** A list whose last but one action makes the whole change, in one go. */
  lemma AtomicAtTheEnd(r: Row, open: seq<Action>, last: Action, tail: Action, all: seq<Action>, done: Row, cut: nat)
    requires all == open + [last, tail] && cut <= |all|
    requires cut <= |open| ==> After(r, open, cut) == r
    requires Apply(ApplyAll(r, open), last) == done && Apply(done, tail) == done && done.tx.None?
    ensures After(r, all, cut) == if |open| < cut then done else r
    ensures ApplyAll(r, all) == done
  {
    hide Apply, ApplyAll, After;
    CutConcat(r, open, [last, tail], cut);
    ApplyConcat(r, open, [last, tail]);
    PairAtTheEnd(ApplyAll(r, open), last, tail, if |open| <= cut then cut - |open| else 0);
  }

  /**
   * A transactional activity is all or nothing: up to its Commit a crash leaves the tables as
   * they were, from then on everything is there; a failed one leaves nothing.
   */
  lemma TransactionIsAtomic(r: Row, c: Call, id: string, env: Env, cut: nat)
    requires c.Activity? && r.tx.None? && cut <= |InTransaction(c, id, env)|
    ensures var o, all := env.invoke(id), InTransaction(c, id, env);
            var done := if o.Ok? then Committed(r, c, id, ActivityEvent(id, o), env) else r;
            && After(r, all, cut) == (if |all| - 1 <= cut then done else r)
            && ApplyAll(r, all) == done
  {
    hide ApplyAll, Apply, WriteAll;
    var open := [Begin] + Statements(c, id, env);
    TransactionShape(c, id, env);
    OpenTransactionHides(r, c, id, env, if cut <= |open| then cut else 0);
    ClosingTransaction(r, c, id, env);
    SeeIsSilent(r, id, env.invoke(id));
    SeeIsSilent(Committed(r, c, id, ActivityEvent(id, env.invoke(id)), env), id, env.invoke(id));
    AtomicAtTheEnd(r, open, if env.invoke(id).Ok? then Commit else Rollback, See(id, env.invoke(id)),
      InTransaction(c, id, env),
      if env.invoke(id).Ok? then Committed(r, c, id, ActivityEvent(id, env.invoke(id)), env) else r, cut);
  }

  // ---- What an iteration of a workflow owes to its base ----

  /** Record j is the success of a transactional activity. */
  predicate TxDone(wf: Workflow, records: seq<Event>, j: nat)
    requires j < |records|
  {
    var c := wf(Outs(records)[..j]);
    c.Activity? && c.transactional && records[j].kind.ActivityCompleted?
  }

  /** The transactional activities that succeeded, in the order of the run. */
  function TxRows(wf: Workflow, records: seq<Event>): seq<string> {
    if records == [] then []
    else
      var last := |records| - 1;
      TxRows(wf, records[..last]) + if TxDone(wf, records, last) then [records[last].activityId] else []
  }

  /**
   * The entries are, in order, one for every successful transactional activity with a
   * compensation; a non-transactional one may have lost its entry to a crash.
   */
  ghost predicate Registered(wf: Workflow, records: seq<Event>, entries: seq<Compensation>) {
    if records == [] then entries == []
    else
      var last := |records| - 1;
      var c := wf(Outs(records)[..last]);
      var owned := entries != [] && entries[|entries| - 1].activityId == records[last].activityId
                   && Registered(wf, records[..last], entries[..|entries| - 1]);
      if c.Activity? && c.compensated && records[last].kind.ActivityCompleted? then
        owned || (!c.transactional && Registered(wf, records[..last], entries))
      else
        Registered(wf, records[..last], entries)
  }

  ghost predicate Accounted(wf: Workflow, base: Row, r: Row) {
    && r.userRows == base.userRows + TxRows(wf, Outcomes(r.history))
    && base.compensations <= r.compensations
    && Registered(wf, Outcomes(r.history), r.compensations[|base.compensations|..])
  }

  /** `base` is the instance when the current iteration began. */
  ghost predicate Inv(wf: Workflow, base: Row, r: Row) {
    OnPath(wf, r) && Accounted(wf, base, r)
  }

  lemma RecordSnoc(wf: Workflow, records: seq<Event>, e: Event, entries: seq<Compensation>)
    requires Registered(wf, records, entries)
    ensures var c := wf(Outs(records));
            var done := c.Activity? && e.kind.ActivityCompleted?;
            && TxRows(wf, records + [e]) ==
                 TxRows(wf, records) + (if done && c.transactional then [e.activityId] else [])
            && (!(done && c.compensated && c.transactional) ==> Registered(wf, records + [e], entries))
            && (done && c.compensated ==>
                  forall entry: Compensation :: entry.activityId == e.activityId ==>
                    Registered(wf, records + [e], entries + [entry]))
  {
    var all := records + [e];
    assert all[..|records|] == records;
    assert Outs(all)[..|records|] == Outs(records);
    forall entry: Compensation | entry.activityId == e.activityId
      ensures (entries + [entry])[..|entries|] == entries
    {
    }
  }

  /** Everything but the history and what activities add stays as it is. */
  predicate SameElse(r: Row, r': Row) {
    && r'.status == r.status && r'.lock == r.lock && r'.output == r.output
    && r'.archive == r.archive && r'.timers == r.timers && r'.subscriptions == r.subscriptions
  }

  lemma RecordedKeeps(wf: Workflow, base: Row, r: Row, e: Event)
    requires WellNamed(wf) && Inv(wf, base, r)
    requires var seen := Outs(Outcomes(r.history));
             !Ends(wf(seen)) && e.activityId == IdOf(wf, seen) && Fits(wf(seen), e)
    ensures var seen := Outs(Outcomes(r.history));
            var r' := r.(history := Appended(r.history, e));
            var c := wf(seen);
            var done := c.Activity? && e.kind.ActivityCompleted?;
            && r'.history == r.history + [e]
            && Outs(Outcomes(r'.history)) == seen + [OutcomeOf(e)]
            && CacheOf(r'.history) == CacheOf(r.history)[e.activityId := OutcomeOf(e)]
            && (!(done && c.transactional) ==> Inv(wf, base, r'))
            && (done && c.transactional && !c.compensated ==>
                  Inv(wf, base, r'.(userRows := r.userRows + [e.activityId])))
  {
    AppendNext(wf, r, e);
    RecordSnoc(wf, Outcomes(r.history), e, r.compensations[|base.compensations|..]);
    assert base.userRows + (TxRows(wf, Outcomes(r.history)) + [e.activityId]) ==
           r.userRows + [e.activityId];
    assert TxRows(wf, Outcomes(r.history)) + [] == TxRows(wf, Outcomes(r.history));
  }

  lemma EntryKeeps(wf: Workflow, base: Row, r: Row, e: Event, entry: Compensation)
    requires WellNamed(wf) && Inv(wf, base, r)
    requires var seen := Outs(Outcomes(r.history));
             wf(seen).Activity? && wf(seen).compensated && e.activityId == IdOf(wf, seen) && e.kind.ActivityCompleted?
    requires entry.activityId == e.activityId
    ensures var c := wf(Outs(Outcomes(r.history)));
            Inv(wf, base, r.(history := Appended(r.history, e),
                             userRows := r.userRows + (if c.transactional then [e.activityId] else []),
                             compensations := r.compensations + [entry],
                             nextCompensation := r.nextCompensation + 1))
  {
    AppendNext(wf, r, e);
    var entries := r.compensations[|base.compensations|..];
    RecordSnoc(wf, Outcomes(r.history), e, entries);
    assert (r.compensations + [entry])[|base.compensations|..] == entries + [entry];
    assert base.userRows + (TxRows(wf, Outcomes(r.history)) + [e.activityId]) ==
           r.userRows + [e.activityId];
    assert TxRows(wf, Outcomes(r.history)) + [] == TxRows(wf, Outcomes(r.history));
    assert r.userRows + [] == r.userRows;
  }

  lemma PrefixOfTwo(r: Row, a: Action, b: Action, cut: nat)
    requires cut <= 2
    ensures ApplyAll(r, [a, b]) == Apply(Apply(r, a), b)
    ensures ApplyAll(r, [a, b][..cut]) ==
            if cut == 0 then r else if cut == 1 then Apply(r, a) else Apply(Apply(r, a), b)
  {
    hide Apply;
    ApplyPair(r, a, b);
    assert cut == 1 ==> [a, b][..cut] == [a];
    assert cut == 2 ==> [a, b][..cut] == [a, b];
  }

  lemma PrefixOfThree(r: Row, a: Action, b: Action, c: Action, cut: nat)
    requires cut <= 3
    ensures ApplyAll(r, [a, b, c]) == Apply(Apply(Apply(r, a), b), c)
    ensures ApplyAll(r, [a, b, c][..cut]) ==
            if cut == 0 then r else if cut == 1 then Apply(r, a)
            else if cut == 2 then Apply(Apply(r, a), b) else Apply(Apply(Apply(r, a), b), c)
  {
    hide Apply;
    ApplyPair(r, a, b);
    ApplySnoc(r, [a, b], c);
    assert [a, b] + [c] == [a, b, c];
    assert cut == 1 ==> [a, b, c][..cut] == [a];
    assert cut == 2 ==> [a, b, c][..cut] == [a, b];
    assert cut == 3 ==> [a, b, c][..cut] == [a, b, c];
  }

  lemma PrefixOfFour(r: Row, a: Action, b: Action, c: Action, d: Action, cut: nat)
    requires cut <= 4
    ensures ApplyAll(r, [a, b, c, d]) == Apply(Apply(Apply(Apply(r, a), b), c), d)
    ensures ApplyAll(r, [a, b, c, d][..cut]) ==
            if cut == 0 then r else if cut == 1 then Apply(r, a)
            else if cut == 2 then Apply(Apply(r, a), b)
            else if cut == 3 then Apply(Apply(Apply(r, a), b), c)
            else Apply(Apply(Apply(Apply(r, a), b), c), d)
  {
    hide Apply;
    PrefixOfThree(r, a, b, c, if cut <= 3 then cut else 3);
    ApplySnoc(r, [a, b, c], d);
    assert [a, b, c] + [d] == [a, b, c, d];
    if cut <= 3 {
      assert [a, b, c, d][..cut] == [a, b, c][..cut];
    } else {
      assert [a, b, c, d][..cut] == [a, b, c, d];
    }
  }

  /** The tables once a call has been performed. */
  function Performed(r: Row, c: Call, id: string, env: Env): Row
    requires c.Activity? || (c.WaitEvent? && env.pending(id).Some?)
  {
    var o := PerformedOutcome(c, id, env);
    var recorded := r.(history := Appended(r.history, ActivityEvent(id, o)));
    if c.Activity? && c.transactional then
      if o.Ok? then Committed(r, c, id, ActivityEvent(id, o), env) else r
    else if c.Activity? && c.compensated && o.Ok? then
      Write(recorded, AddCompensation(id, c.name, Millis(env.now)))
    else recorded
  }

  /** A call that is not wrapped in a transaction. */
  predicate Plain(c: Call) {
    c.WaitEvent? || (c.Activity? && !c.transactional)
  }

  /** Outside a transaction every statement takes effect at once. */
  lemma StepOutside(r: Row, e: Event, id: string, name: string, at: nat, o: Outcome)
    requires r.tx.None?
    ensures Apply(r, Call(id)) == r && Apply(r, See(id, o)) == r
    ensures Apply(r, Append(e)) == r.(history := Appended(r.history, e))
    ensures Apply(r, AddCompensation(id, name, at)) == Write(r, AddCompensation(id, name, at))
    ensures Write(r, AddCompensation(id, name, at)).tx.None?
  {
  }

  /** How much of such a call comes before its record: the activity itself, or nothing. */
  function Before(c: Call): nat {
    if c.Activity? then 1 else 0
  }

  /**
   * Where a crash during such a call leaves the tables: nothing up to its record, the bare record
   * right after it, everything from then on.
   */
  lemma PlainCallRows(r: Row, c: Call, id: string, env: Env, cut: nat)
    requires Plain(c) && (c.WaitEvent? ==> env.pending(id).Some?)
    requires r.tx.None? && cut <= |Perform(c, id, env)|
    ensures var e := ActivityEvent(id, PerformedOutcome(c, id, env));
            var r' := After(r, Perform(c, id, env), cut);
            && ApplyAll(r, Perform(c, id, env)) == Performed(r, c, id, env)
            && r' == (if cut <= Before(c) then r
                      else if cut == Before(c) + 1 then r.(history := Appended(r.history, e))
                      else Performed(r, c, id, env))
  {
    hide ApplyAll, Apply, Write, Appended;
    var o := PerformedOutcome(c, id, env);
    var e := ActivityEvent(id, o);
    var recorded := r.(history := Appended(r.history, e));
    var at := Millis(env.now);
    var name := NameOf(c);
    StepOutside(r, e, id, name, at, o);
    StepOutside(recorded, e, id, name, at, o);
    if c.WaitEvent? {
      PrefixOfTwo(r, Append(e), See(id, o), cut);
    } else if !(c.compensated && o.Ok?) {
      PrefixOfThree(r, Call(id), Append(e), See(id, o), cut);
      assert Perform(c, id, env) == [Call(id), Append(e), See(id, o)];
    } else {
      var a := AddCompensation(id, name, at);
      PrefixOfFour(r, Call(id), Append(e), a, See(id, o), cut);
      assert Perform(c, id, env) == [Call(id), Append(e), a, See(id, o)];
      StepOutside(Write(recorded, a), e, id, name, at, o);
    }
  }

  /** The same for every call: nothing, the bare record of a plain activity, or everything. */
  lemma PerformRows(r: Row, c: Call, id: string, env: Env, cut: nat)
    requires c.Activity? || (c.WaitEvent? && env.pending(id).Some?)
    requires r.tx.None? && cut <= |Perform(c, id, env)|
    ensures ApplyAll(r, Perform(c, id, env)) == Performed(r, c, id, env)
    ensures var e := ActivityEvent(id, PerformedOutcome(c, id, env));
            var r' := After(r, Perform(c, id, env), cut);
            || r' == r || r' == Performed(r, c, id, env)
            || (Plain(c) && r' == r.(history := Appended(r.history, e)))
  {
    hide ApplyAll, Apply;
    if Plain(c) {
      PlainCallRows(r, c, id, env, cut);
    } else {
      TransactionIsAtomic(r, c, id, env, cut);
    }
  }

  /** A performed call continues the path, and accounts for what it added. */
  lemma PerformedKeeps(wf: Workflow, base: Row, r: Row, env: Env)
    requires WellNamed(wf) && Inv(wf, base, r)
    requires var seen := Outs(Outcomes(r.history)); !Ends(wf(seen)) && !Suspends(wf(seen), IdOf(wf, seen), env)
    ensures var seen := Outs(Outcomes(r.history));
            var c, id := wf(seen), IdOf(wf, seen);
            var o := PerformedOutcome(c, id, env);
            var done := Performed(r, c, id, env);
            && Inv(wf, base, done) && SameElse(r, done)
            && (if Unrecorded(c, o) then done == r
                else
                  && done.history == r.history + [ActivityEvent(id, o)]
                  && Outs(Outcomes(done.history)) == seen + [o]
                  && CacheOf(done.history) == CacheOf(r.history)[id := o])
            && (Plain(c) ==> Inv(wf, base, r.(history := Appended(r.history, ActivityEvent(id, o)))))
  {
    hide Inv, WellNamed, Outcomes, Outs, CacheOf, IdOf, Appended;
    var seen := Outs(Outcomes(r.history));
    var c, id := wf(seen), IdOf(wf, seen);
    var o := PerformedOutcome(c, id, env);
    var e := ActivityEvent(id, o);
    if !Unrecorded(c, o) {
      RecordedKeeps(wf, base, r, e);
      if c.Activity? && c.compensated && o.Ok? {
        EntryKeeps(wf, base, r, e, Compensation(r.nextCompensation, id, c.name, Millis(env.now)));
        PerformedEntry(r, c, id, env);
      }
    }
  }

  lemma PerformedEntry(r: Row, c: Call, id: string, env: Env)
    requires c.Activity? && c.compensated && env.invoke(id).Ok?
    ensures Performed(r, c, id, env) ==
            r.(history := Appended(r.history, ActivityEvent(id, env.invoke(id))),
               userRows := r.userRows + (if c.transactional then [id] else []),
               compensations :=
                 r.compensations + [Compensation(r.nextCompensation, id, c.name, Millis(env.now))],
               nextCompensation := r.nextCompensation + 1)
  {
    assert r.userRows + [] == r.userRows;
  }

  // ---- Executions ----

  /** Everything but histories, activity rows and fresh subscriptions stays as it is. */
  predicate Widened(r: Row, r': Row) {
    && r'.status == r.status && r'.lock == r.lock && r'.output == r.output
    && r'.archive == r.archive && r'.timers == r.timers
    && (forall ch :: ch in r.subscriptions ==> ch in r'.subscriptions && r'.subscriptions[ch] == r.subscriptions[ch])
    && (forall ch :: ch in r'.subscriptions && ch !in r.subscriptions ==> r'.subscriptions[ch] == None)
  }

  /** How a complete execution ends fits what workflow code does after the recorded outcomes. */
  ghost predicate EndsAt(wf: Workflow, r: Row, end: End, env: Env) {
    var seen := Outs(Outcomes(r.history));
    match end
    case Returned(v) => wf(seen) == Return(v)
    case Raised(m) => wf(seen) == Fail(m) || FailsUnrecorded(wf, seen, m)
    case Recurs(input) => wf(seen) == Recur(input)
    case SleepsUntil(id, expires) =>
      wf(seen).Sleep? && id == IdOf(wf, seen) && expires == env.now + wf(seen).duration
    case WaitsFor(ch, id, timeoutAt) =>
      && wf(seen).WaitEvent? && wf(seen).channel == ch && id == IdOf(wf, seen)
      && ch in r.subscriptions && (timeoutAt.Some? <==> wf(seen).timeout.Some?)
    case Exhausted => true
  }

  /** The next call is a transactional activity, and with an error of it the workflow fails. */
  ghost predicate FailsUnrecorded(wf: Workflow, seen: seq<Outcome>, message: string) {
    && wf(seen).Activity? && wf(seen).transactional
    && exists m :: wf(seen + [Err(m)]) == Fail(message)
  }

  /** A row with the same history and account satisfies the same invariant. */
  lemma InvTransfers(wf: Workflow, base: Row, r: Row, r': Row)
    requires Inv(wf, base, r) && r'.tx.None? && r'.history == r.history
    requires r'.userRows == r.userRows && r'.compensations == r.compensations
    ensures Inv(wf, base, r')
  {
  }

  lemma PreparationWidens(wf: Workflow, base: Row, r: Row, c: Call, id: string, o: Outcome, cut: nat)
    requires Inv(wf, base, r) && !Ends(c)
    requires cut <= |Preparation(c)| + 1
    ensures var r' := After(r, Preparation(c) + [See(id, o)], cut);
            Inv(wf, base, r') && r'.history == r.history && Widened(r, r')
    ensures var done := ApplyAll(r, Preparation(c) + [See(id, o)]);
            Inv(wf, base, done) && done.history == r.history && Widened(r, done)
            && done == ApplyAll(r, Preparation(c)) && (c.WaitEvent? ==> c.channel in done.subscriptions)
  {
    hide ApplyAll, Inv;
    var prepared := if c.WaitEvent? then Write(r, Subscribing(c)) else r;
    assert r.tx.None? by { InvOpen(wf, base, r); }
    InvTransfers(wf, base, r, prepared);
    if c.WaitEvent? {
      PrefixOfTwo(r, Subscribing(c), See(id, o), cut);
      ApplyPair(r, Subscribing(c), See(id, o));
      assert Preparation(c) + [See(id, o)] == [Subscribing(c), See(id, o)];
    } else {
      ApplyPair(r, See(id, o), See(id, o));
      assert Preparation(c) + [See(id, o)] == [See(id, o)];
      assert [See(id, o)][..cut] == if cut == 0 then [] else [See(id, o)];
      ApplyNone(r);
    }
  }

  function Subscribing(c: Call): Action
    requires c.WaitEvent?
  {
    Subscribe(c.channel)
  }

  lemma InvOnPath(wf: Workflow, base: Row, r: Row)
    requires Inv(wf, base, r)
    ensures OnPath(wf, r)
  {
  }

  lemma InvOpen(wf: Workflow, base: Row, r: Row)
    requires Inv(wf, base, r)
    ensures r.tx.None?
  {
  }

  /** An execution over the history of `r` that has already passed its first j records. */
  function ExecFrom(wf: Workflow, r: Row, j: nat, env: Env, fuel: nat): Plan
    requires j <= |Outcomes(r.history)|
  {
    Exec(wf, Outs(Outcomes(r.history))[..j], CacheOf(r.history), env, fuel)
  }

  lemma ExecAtEnd(wf: Workflow, r: Row, env: Env, fuel: nat)
    requires fuel > 0 && Ends(wf(Outs(Outcomes(r.history))))
    ensures ExecFrom(wf, r, |Outcomes(r.history)|, env, fuel) ==
            Plan([], Ending(wf(Outs(Outcomes(r.history)))))
  {
    assert Outs(Outcomes(r.history))[..|Outcomes(r.history)|] == Outs(Outcomes(r.history));
  }

  lemma ExecCached(wf: Workflow, r: Row, j: nat, env: Env, fuel: nat)
    requires WellNamed(wf) && OnPath(wf, r) && j < |Outcomes(r.history)| && fuel > 0
    ensures var seen := Outs(Outcomes(r.history));
            var c, rest := wf(seen[..j]), ExecFrom(wf, r, j + 1, env, fuel - 1);
            && !Ends(c)
            && ExecFrom(wf, r, j, env, fuel) ==
                 Plan(Preparation(c) + [See(IdOf(wf, seen[..j]), seen[j])] + rest.actions, rest.end)
  {
    var records := Outcomes(r.history);
    var seen := Outs(records);
    assert Answers(wf, records, j);
    CacheAnswers(wf, r, j);
    assert CachedOutcome(wf(seen[..j]), CacheOf(r.history)[IdOf(wf, seen[..j])]) == seen[j];
    assert seen[..j] + [seen[j]] == seen[..j + 1];
  }

  lemma ExecSuspends(wf: Workflow, r: Row, env: Env, fuel: nat)
    requires WellNamed(wf) && OnPath(wf, r) && fuel > 0
    requires var seen := Outs(Outcomes(r.history)); !Ends(wf(seen)) && Suspends(wf(seen), IdOf(wf, seen), env)
    ensures var seen := Outs(Outcomes(r.history));
            ExecFrom(wf, r, |Outcomes(r.history)|, env, fuel) ==
              Plan(Preparation(wf(seen)), Suspension(wf(seen), IdOf(wf, seen), env))
  {
    var seen := Outs(Outcomes(r.history));
    assert seen[..|Outcomes(r.history)|] == seen;
    CacheAnswers(wf, r, |Outcomes(r.history)|);
  }

  lemma ExecPerforms(wf: Workflow, r: Row, env: Env, fuel: nat)
    requires WellNamed(wf) && OnPath(wf, r) && fuel > 0
    requires var seen := Outs(Outcomes(r.history)); !Ends(wf(seen)) && !Suspends(wf(seen), IdOf(wf, seen), env)
    ensures var seen := Outs(Outcomes(r.history));
            var c, id := wf(seen), IdOf(wf, seen);
            var o := PerformedOutcome(c, id, env);
            var rest := Exec(wf, seen + [o], CacheOf(r.history)[id := o], env, fuel - 1);
            ExecFrom(wf, r, |Outcomes(r.history)|, env, fuel) ==
              Plan(Preparation(c) + Perform(c, id, env) + rest.actions, rest.end)
  {
    var seen := Outs(Outcomes(r.history));
    assert seen[..|Outcomes(r.history)|] == seen;
    CacheAnswers(wf, r, |Outcomes(r.history)|);
  }

  ghost predicate Kept(wf: Workflow, base: Row, r: Row, r': Row) {
    Inv(wf, base, r') && r.history <= r'.history && Widened(r, r')
  }

  lemma KeptTransitive(wf: Workflow, base: Row, r: Row, r': Row, r'': Row)
    requires Kept(wf, base, r, r') && Kept(wf, base, r', r'')
    ensures Kept(wf, base, r, r'')
  {
  }

  /** What follows a performed call, as an execution over the longer history. */
  lemma ExecAfterPerform(wf: Workflow, base: Row, r: Row, done: Row, env: Env, fuel: nat)
    requires WellNamed(wf) && Propagates(wf) && Inv(wf, base, r) && fuel > 0
    requires var seen := Outs(Outcomes(r.history)); !Ends(wf(seen)) && !Suspends(wf(seen), IdOf(wf, seen), env)
    requires var seen := Outs(Outcomes(r.history));
             done.history == Performed(r, wf(seen), IdOf(wf, seen), env).history
    ensures var seen := Outs(Outcomes(r.history));
            var c, id := wf(seen), IdOf(wf, seen);
            var o := PerformedOutcome(c, id, env);
            var rest := Exec(wf, seen + [o], CacheOf(r.history)[id := o], env, fuel - 1);
            if Unrecorded(c, o) then
              && done.history == r.history && rest.actions == []
              && (rest.end.Exhausted? || (rest.end.Raised? && FailsUnrecorded(wf, seen, rest.end.message)))
            else
              && |Outcomes(done.history)| == |seen| + 1
              && rest == ExecFrom(wf, done, |seen| + 1, env, fuel - 1)
  {
    var seen := Outs(Outcomes(r.history));
    var c, id := wf(seen), IdOf(wf, seen);
    var o := PerformedOutcome(c, id, env);
    PerformedKeeps(wf, base, r, env);
    if Unrecorded(c, o) {
      assert wf(seen + [Err(o.message)]).Fail?;
      if fuel > 1 {
        assert wf(seen + [Err(o.message)]) == Fail(wf(seen + [o]).message);
      }
    } else {
      assert (seen + [o])[..|seen| + 1] == seen + [o];
    }
  }

  lemma KeptAlike(wf: Workflow, base: Row, r: Row, r': Row)
    requires Inv(wf, base, r') && r.history <= r'.history && SameElse(r, r')
    ensures Kept(wf, base, r, r')
  {
    hide Inv;
  }

  /** What a performed call leaves is kept, and so is the bare record of a plain one. */
  lemma PerformedKept(wf: Workflow, base: Row, r: Row, env: Env)
    requires WellNamed(wf) && Inv(wf, base, r)
    requires var seen := Outs(Outcomes(r.history)); !Ends(wf(seen)) && !Suspends(wf(seen), IdOf(wf, seen), env)
    ensures var seen := Outs(Outcomes(r.history));
            var c, id := wf(seen), IdOf(wf, seen);
            var e := ActivityEvent(id, PerformedOutcome(c, id, env));
            && Kept(wf, base, r, r) && Kept(wf, base, r, Performed(r, c, id, env))
            && (Plain(c) ==> Kept(wf, base, r, r.(history := Appended(r.history, e))))
  {
    hide Inv, WellNamed, Outcomes, Outs, IdOf, CacheOf, Performed, ActivityEvent, Appended, PerformedOutcome, Kept;
    var seen := Outs(Outcomes(r.history));
    var c, id := wf(seen), IdOf(wf, seen);
    var e := ActivityEvent(id, PerformedOutcome(c, id, env));
    PerformedKeeps(wf, base, r, env);
    KeptAlike(wf, base, r, r);
    KeptAlike(wf, base, r, Performed(r, c, id, env));
    if Plain(c) {
      KeptAlike(wf, base, r, r.(history := Appended(r.history, e)));
    }
  }

  /** A performed call, wherever it is cut. */
  lemma PerformKept(wf: Workflow, base: Row, r: Row, env: Env, cut: nat)
    requires WellNamed(wf) && Inv(wf, base, r)
    requires var seen := Outs(Outcomes(r.history)); !Ends(wf(seen)) && !Suspends(wf(seen), IdOf(wf, seen), env)
    requires var seen := Outs(Outcomes(r.history)); cut <= |Perform(wf(seen), IdOf(wf, seen), env)|
    ensures var seen := Outs(Outcomes(r.history));
            var c, id := wf(seen), IdOf(wf, seen);
            && Kept(wf, base, r, After(r, Perform(c, id, env), cut))
            && Kept(wf, base, r, ApplyAll(r, Perform(c, id, env)))
            && ApplyAll(r, Perform(c, id, env)) == Performed(r, c, id, env)
  {
    hide ApplyAll, Inv, WellNamed, Outcomes, Outs, IdOf, CacheOf, Perform, Performed, After, ActivityEvent, Appended,
         PerformedOutcome, Kept;
    var seen := Outs(Outcomes(r.history));
    var c, id := wf(seen), IdOf(wf, seen);
    InvOpen(wf, base, r);
    PerformRows(r, c, id, env, cut);
    PerformedKept(wf, base, r, env);
  }

  lemma ExecNothing(wf: Workflow, r: Row, j: nat, env: Env)
    requires j <= |Outcomes(r.history)|
    ensures ExecFrom(wf, r, j, env, 0) == Plan([], Exhausted)
  {
  }

  lemma SameHistorySamePlan(wf: Workflow, r: Row, r': Row, j: nat, env: Env, fuel: nat)
    requires r'.history == r.history && j <= |Outcomes(r.history)|
    ensures ExecFrom(wf, r', j, env, fuel) == ExecFrom(wf, r, j, env, fuel)
  {
  }

  lemma PreparationAlone(wf: Workflow, base: Row, r: Row, c: Call, cut: nat)
    requires Inv(wf, base, r) && !Ends(c) && cut <= |Preparation(c)|
    ensures Kept(wf, base, r, After(r, Preparation(c), cut))
    ensures Kept(wf, base, r, ApplyAll(r, Preparation(c)))
    ensures ApplyAll(r, Preparation(c)).history == r.history
    ensures c.WaitEvent? ==> c.channel in ApplyAll(r, Preparation(c)).subscriptions
  {
    hide ApplyAll, Inv;
    var o: Outcome := Ok("");
    PreparationWidens(wf, base, r, c, "", o, cut);
    CutConcat(r, Preparation(c), [See("", o)], cut);
  }

  lemma KeptInv(wf: Workflow, base: Row, r: Row, r': Row)
    requires Kept(wf, base, r, r')
    ensures Inv(wf, base, r')
  {
  }

  /** A call with its preparation, wherever it is cut. */
  lemma CallKept(wf: Workflow, base: Row, r: Row, env: Env, cut: nat)
    requires WellNamed(wf) && Inv(wf, base, r)
    requires var seen := Outs(Outcomes(r.history)); !Ends(wf(seen)) && !Suspends(wf(seen), IdOf(wf, seen), env)
    requires var seen := Outs(Outcomes(r.history));
             cut <= |Preparation(wf(seen)) + Perform(wf(seen), IdOf(wf, seen), env)|
    ensures var seen := Outs(Outcomes(r.history));
            var c, id := wf(seen), IdOf(wf, seen);
            && Kept(wf, base, r, After(r, Preparation(c) + Perform(c, id, env), cut))
            && Kept(wf, base, r, ApplyAll(r, Preparation(c) + Perform(c, id, env)))
            && ApplyAll(r, Preparation(c) + Perform(c, id, env)).history == Performed(r, c, id, env).history
  {
    hide ApplyAll, After, Inv, Kept, WellNamed, Outcomes, Outs, IdOf, Perform, Performed, Widened;
    var seen := Outs(Outcomes(r.history));
    var c, id := wf(seen), IdOf(wf, seen);
    var prepared := ApplyAll(r, Preparation(c));
    var inner := if cut <= |Preparation(c)| then 0 else cut - |Preparation(c)|;
    PreparationAlone(wf, base, r, c, if cut <= |Preparation(c)| then cut else 0);
    KeptInv(wf, base, r, prepared);
    PerformKept(wf, base, prepared, env, inner);
    CutConcat(r, Preparation(c), Perform(c, id, env), cut);
    ApplyConcat(r, Preparation(c), Perform(c, id, env));
    KeptTransitive(wf, base, r, prepared, After(prepared, Perform(c, id, env), inner));
    KeptTransitive(wf, base, r, prepared, ApplyAll(prepared, Perform(c, id, env)));
    SamePerformedHistory(r, prepared, c, id, env);
  }

  lemma SamePerformedHistory(r: Row, r': Row, c: Call, id: string, env: Env)
    requires c.Activity? || (c.WaitEvent? && env.pending(id).Some?)
    requires r.history == r'.history
    ensures Performed(r, c, id, env).history == Performed(r', c, id, env).history
  {
  }

  /** The performing case of the theorem below. */
  lemma {:induction false} ExecPerformKeeps(wf: Workflow, base: Row, r: Row, env: Env, fuel: nat, cut: nat)
    requires WellNamed(wf) && Propagates(wf) && Inv(wf, base, r) && fuel > 0
    requires var seen := Outs(Outcomes(r.history)); !Ends(wf(seen)) && !Suspends(wf(seen), IdOf(wf, seen), env)
    requires cut <= |ExecFrom(wf, r, |Outcomes(r.history)|, env, fuel).actions|
    ensures var plan := ExecFrom(wf, r, |Outcomes(r.history)|, env, fuel);
            && Kept(wf, base, r, After(r, plan.actions, cut))
            && Kept(wf, base, r, ApplyAll(r, plan.actions))
            && EndsAt(wf, ApplyAll(r, plan.actions), plan.end, env)
    decreases fuel, 0
  {
    hide ApplyAll, Inv, WellNamed, Propagates, Outcomes, Outs, IdOf, CacheOf, Perform, Performed, ExecFrom, Exec;
    var seen := Outs(Outcomes(r.history));
    var c, id := wf(seen), IdOf(wf, seen);
    var o := PerformedOutcome(c, id, env);
    var first := Preparation(c) + Perform(c, id, env);
    var done := ApplyAll(r, first);
    var rest := Exec(wf, seen + [o], CacheOf(r.history)[id := o], env, fuel - 1);
    InvOnPath(wf, base, r);
    ExecPerforms(wf, r, env, fuel);
    CallKept(wf, base, r, env, if cut <= |first| then cut else 0);
    CutConcat(r, first, rest.actions, cut);
    ApplyConcat(r, first, rest.actions);
    ExecAfterPerform(wf, base, r, done, env, fuel);
    if Unrecorded(c, o) {
      ApplyNone(done);
    } else {
      ExecKeeps(wf, base, done, |seen| + 1, env, fuel - 1, if |first| <= cut then cut - |first| else 0);
      KeptTransitive(wf, base, r, done, ApplyAll(done, rest.actions));
      if |first| <= cut {
        KeptTransitive(wf, base, r, done, After(done, rest.actions, cut - |first|));
      }
    }
  }

  /**
   * An execution that starts on the path stays on it: cut anywhere, its records continue the
   * uninterrupted run; complete, it ends where workflow code ends after those records.
   */
  lemma {:induction false} ExecKeeps(wf: Workflow, base: Row, r: Row, j: nat, env: Env, fuel: nat, cut: nat)
    requires WellNamed(wf) && Propagates(wf) && Inv(wf, base, r) && j <= |Outcomes(r.history)|
    requires cut <= |ExecFrom(wf, r, j, env, fuel).actions|
    ensures var plan := ExecFrom(wf, r, j, env, fuel);
            && Kept(wf, base, r, After(r, plan.actions, cut))
            && Kept(wf, base, r, ApplyAll(r, plan.actions))
            && EndsAt(wf, ApplyAll(r, plan.actions), plan.end, env)
    decreases fuel, 1
  {
    hide ApplyAll, Inv, WellNamed, Propagates, Outcomes, Outs, IdOf, CacheOf, Perform, Performed, ExecFrom;
    var seen := Outs(Outcomes(r.history));
    InvOnPath(wf, base, r);
    if fuel == 0 {
      ExecNothing(wf, r, j, env);
      ApplyNone(r);
    } else if j < |Outcomes(r.history)| {
      ExecCached(wf, r, j, env, fuel);
      var c, id := wf(seen[..j]), IdOf(wf, seen[..j]);
      var first := Preparation(c) + [See(id, seen[j])];
      var next := ApplyAll(r, first);
      var rest := ExecFrom(wf, r, j + 1, env, fuel - 1);
      PreparationWidens(wf, base, r, c, id, seen[j], if cut <= |first| then cut else 0);
      CutConcat(r, first, rest.actions, cut);
      ApplyConcat(r, first, rest.actions);
      SameHistorySamePlan(wf, r, next, j + 1, env, fuel - 1);
      ExecKeeps(wf, base, next, j + 1, env, fuel - 1, if |first| <= cut then cut - |first| else 0);
      KeptTransitive(wf, base, r, next, ApplyAll(next, rest.actions));
      if |first| <= cut {
        KeptTransitive(wf, base, r, next, After(next, rest.actions, cut - |first|));
      }
    } else if Ends(wf(seen)) {
      ExecAtEnd(wf, r, env, fuel);
      ApplyNone(r);
    } else if Suspends(wf(seen), IdOf(wf, seen), env) {
      ExecSuspends(wf, r, env, fuel);
      PreparationAlone(wf, base, r, wf(seen), cut);
    } else {
      ExecPerforms(wf, r, env, fuel);
      ExecPerformKeeps(wf, base, r, env, fuel, cut);
    }
  }

  // ---- What workflow code sees, and what it calls ----

  function SeenBy(actions: seq<Action>): seq<Outcome> {
    if actions == [] then []
    else
      var last := actions[|actions| - 1];
      SeenBy(actions[..|actions| - 1]) + if last.See? then [last.outcome] else []
  }

  lemma {:induction false} SeenByConcat(first: seq<Action>, second: seq<Action>)
    ensures SeenBy(first + second) == SeenBy(first) + SeenBy(second)
  {
    if second == [] {
      assert first + second == first;
    } else {
      var init := second[..|second| - 1];
      SeenByConcat(first, init);
      assert (first + second)[..|first + second| - 1] == first + init;
    }
  }

  lemma {:induction false} SeenByNothing(actions: seq<Action>)
    requires forall i :: 0 <= i < |actions| ==> !actions[i].See?
    ensures SeenBy(actions) == []
  {
    if actions != [] {
      SeenByNothing(actions[..|actions| - 1]);
    }
  }

  /** Only the last action of a list shows an outcome. */
  lemma SeenAtTheEnd(actions: seq<Action>, o: Outcome, cut: nat)
    requires actions != [] && actions[|actions| - 1].See? && actions[|actions| - 1].outcome == o
    requires forall i :: 0 <= i < |actions| - 1 ==> !actions[i].See?
    requires cut <= |actions|
    ensures SeenBy(actions[..cut]) == if cut < |actions| then [] else [o]
    ensures SeenBy(actions) == [o]
  {
    SeenByNothing(actions[..|actions| - 1]);
    if cut < |actions| {
      SeenByNothing(actions[..cut]);
    } else {
      assert actions[..cut] == actions;
    }
  }

  /** Workflow code stands on the path: beyond it by an unrecorded error at most, which ends it. */
  ghost predicate OnTrack(wf: Workflow, all: seq<Outcome>, got: seq<Outcome>) {
    || got <= all
    || (|got| == |all| + 1 && got[..|all|] == all && got[|all|].Err?
        && wf(all).Activity? && wf(all).transactional && wf(got).Fail?)
  }

  /** User code is called only for the next call of the path, and only while it has no record. */
  ghost predicate CallsNext(wf: Workflow, r: Row, got: seq<Outcome>, id: string) {
    var all := Outs(Outcomes(r.history));
    got == all && wf(all).Activity? && id == IdOf(wf, all) && !HasId(r.history, id)
  }

  ghost predicate Disciplined(wf: Workflow, r: Row, got: seq<Outcome>, rest: seq<Action>) {
    && OnTrack(wf, Outs(Outcomes(r.history)), got)
    && (rest != [] && rest[0].Call? ==> CallsNext(wf, r, got, rest[0].id))
  }

  lemma PerformShape(c: Call, id: string, env: Env)
    requires c.Activity? || (c.WaitEvent? && env.pending(id).Some?)
    ensures var all := Perform(c, id, env);
            && all != [] && all[|all| - 1] == See(id, PerformedOutcome(c, id, env))
            && (forall i :: 0 <= i < |all| - 1 ==> !all[i].See?)
            && (forall i :: 0 <= i < |all| && all[i].Call? ==>
                  c.Activity? && all[i].id == id && i == if c.transactional then 1 else 0)
  {
  }

  /** A call at work: before its last action nothing new is seen. */
  lemma PerformDisciplined(wf: Workflow, base: Row, r: Row, env: Env, cut: nat)
    requires WellNamed(wf) && Inv(wf, base, r)
    requires var seen := Outs(Outcomes(r.history)); !Ends(wf(seen)) && !Suspends(wf(seen), IdOf(wf, seen), env)
    requires var seen := Outs(Outcomes(r.history)); cut < |Perform(wf(seen), IdOf(wf, seen), env)|
    ensures var seen := Outs(Outcomes(r.history));
            var all := Perform(wf(seen), IdOf(wf, seen), env);
            Disciplined(wf, After(r, all, cut), seen + SeenBy(all[..cut]), all[cut..])
  {
    hide ApplyAll, After, Inv, Outcomes, Outs, IdOf, Perform, CacheOf, Performed, SeenBy, PerformedOutcome, Widened,
         HasId, WellNamed, Kept, CallsNext;
    var seen := Outs(Outcomes(r.history));
    var c, id := wf(seen), IdOf(wf, seen);
    var all := Perform(c, id, env);
    PerformShape(c, id, env);
    SeenAtTheEnd(all, PerformedOutcome(c, id, env), cut);
    assert seen + [] == seen;
    PerformKept(wf, base, r, env, cut);
    KeptSeen(wf, base, r, After(r, all, cut));
    if all[cut].Call? {
      PerformCallsNext(wf, base, r, env, cut);
    }
  }

  lemma PerformCallsNext(wf: Workflow, base: Row, r: Row, env: Env, cut: nat)
    requires WellNamed(wf) && Inv(wf, base, r)
    requires var seen := Outs(Outcomes(r.history)); !Ends(wf(seen)) && !Suspends(wf(seen), IdOf(wf, seen), env)
    requires var seen := Outs(Outcomes(r.history));
             var all := Perform(wf(seen), IdOf(wf, seen), env); cut < |all| && all[cut].Call?
    ensures var seen := Outs(Outcomes(r.history));
            var all := Perform(wf(seen), IdOf(wf, seen), env);
            CallsNext(wf, After(r, all, cut), seen, all[cut].id)
  {
    hide ApplyAll, After, Inv, Outcomes, Outs, IdOf, Perform, CacheOf, HasId, WellNamed;
    var seen := Outs(Outcomes(r.history));
    var c, id := wf(seen), IdOf(wf, seen);
    InvOnPath(wf, base, r);
    PerformShape(c, id, env);
    NextIdIsFree(wf, r);
    CallChangesNothing(r, c, id, env, cut);
  }

  lemma KeptSeen(wf: Workflow, base: Row, r: Row, r': Row)
    requires Kept(wf, base, r, r')
    ensures Outs(Outcomes(r.history)) <= Outs(Outcomes(r'.history))
    ensures Outcomes(r.history) <= Outcomes(r'.history)
  {
    var more := r'.history[|r.history|..];
    assert r'.history == r.history + more;
    FilterConcat(r.history, more, IsOutcome);
  }

  lemma CallChangesNothing(r: Row, c: Call, id: string, env: Env, cut: nat)
    requires c.Activity? && r.tx.None?
    requires cut == if c.transactional then 1 else 0
    ensures cut <= |Perform(c, id, env)| && After(r, Perform(c, id, env), cut) == r
  {
    hide ApplyAll, Apply;
    if c.transactional {
      TransactionIsAtomic(r, c, id, env, cut);
    } else {
      assert Perform(c, id, env)[..0] == [];
      ApplyNone(r);
    }
  }

  /** Cutting `first + second` beyond `first`: the rest and what was seen split accordingly. */
  lemma SeenBeyond(first: seq<Action>, second: seq<Action>, cut: nat)
    requires |first| <= cut <= |first + second|
    ensures SeenBy((first + second)[..cut]) == SeenBy(first) + SeenBy(second[..cut - |first|])
    ensures (first + second)[cut..] == second[cut - |first|..]
  {
    assert (first + second)[..cut] == first + second[..cut - |first|];
    SeenByConcat(first, second[..cut - |first|]);
  }

  lemma SeenWithin(first: seq<Action>, second: seq<Action>, cut: nat)
    requires cut < |first|
    ensures (first + second)[..cut] == first[..cut]
    ensures (first + second)[cut..][0] == first[cut..][0] == first[cut]
  {
  }

  lemma SameNextAction(wf: Workflow, r: Row, got: seq<Outcome>, rest: seq<Action>, rest': seq<Action>)
    requires Disciplined(wf, r, got, rest) && rest != [] && rest' != [] && rest[0] == rest'[0]
    ensures Disciplined(wf, r, got, rest')
  {
  }

  lemma PreparationShape(c: Call, id: string, o: Outcome, cut: nat)
    requires cut <= |Preparation(c)|
    ensures var first := Preparation(c) + [See(id, o)];
            && SeenBy(first[..cut]) == [] && SeenBy(Preparation(c)[..cut]) == []
            && SeenBy(first) == [o] && SeenBy(Preparation(c)) == []
            && !first[cut].Call?
            && (cut < |Preparation(c)| ==> !Preparation(c)[cut].Call?)
  {
    hide SeenBy;
    SeenAtTheEnd(Preparation(c) + [See(id, o)], o, cut);
    SeenByNothing(Preparation(c)[..cut]);
    SeenByNothing(Preparation(c));
    assert (Preparation(c) + [See(id, o)])[..cut] == Preparation(c)[..cut];
  }

  /** Nothing new recorded or seen, and no call next. */
  lemma QuietDisciplined(wf: Workflow, base: Row, r: Row, r': Row, rest: seq<Action>)
    requires Kept(wf, base, r, r') && (rest != [] ==> !rest[0].Call?)
    ensures Disciplined(wf, r', Outs(Outcomes(r.history)) + [], rest)
  {
    KeptSeen(wf, base, r, r');
    assert Outs(Outcomes(r.history)) + [] == Outs(Outcomes(r.history));
  }

  /** The performing case of the theorem below. */
  lemma {:induction false} ExecPerformDisciplined(wf: Workflow, base: Row, r: Row, env: Env, fuel: nat, cut: nat)
    requires WellNamed(wf) && Propagates(wf) && Inv(wf, base, r) && fuel > 0
    requires var seen := Outs(Outcomes(r.history)); !Ends(wf(seen)) && !Suspends(wf(seen), IdOf(wf, seen), env)
    requires cut <= |ExecFrom(wf, r, |Outcomes(r.history)|, env, fuel).actions|
    ensures var all := ExecFrom(wf, r, |Outcomes(r.history)|, env, fuel).actions;
            Disciplined(wf, After(r, all, cut), Outs(Outcomes(r.history)) + SeenBy(all[..cut]), all[cut..])
    decreases fuel, 1
  {
    hide ApplyAll, Inv, WellNamed, Propagates, Outcomes, Outs, IdOf, CacheOf, Perform, Performed, ExecFrom, Exec,
         Preparation, SeenBy, After, Disciplined, ActivityEvent;
    var seen := Outs(Outcomes(r.history));
    var c, id := wf(seen), IdOf(wf, seen);
    var o := PerformedOutcome(c, id, env);
    var prep, perform := Preparation(c), Perform(c, id, env);
    var first := prep + perform;
    var done := ApplyAll(r, first);
    var rest := Exec(wf, seen + [o], CacheOf(r.history)[id := o], env, fuel - 1).actions;
    InvOnPath(wf, base, r);
    ExecPerforms(wf, r, env, fuel);
    CutConcat(r, first, rest, cut);
    if cut < |prep| {
      PreparationShape(c, id, o, cut);
      PreparationAlone(wf, base, r, c, cut);
      CutConcat(r, prep, perform, cut);
      SeenWithin(first, rest, cut);
      SeenWithin(prep, perform, cut);
      QuietDisciplined(wf, base, r, After(r, prep, cut), (first + rest)[cut..]);
    } else if cut < |first| {
      PreparationShape(c, id, o, 0);
      PreparationAlone(wf, base, r, c, 0);
      CutConcat(r, prep, perform, cut);
      SeenWithin(first, rest, cut);
      SeenBeyond(prep, perform, cut);
      PerformDisciplined(wf, base, ApplyAll(r, prep), env, cut - |prep|);
      assert [] + SeenBy(perform[..cut - |prep|]) == SeenBy(perform[..cut - |prep|]);
      SameNextAction(wf, After(r, first + rest, cut), seen + SeenBy(perform[..cut - |prep|]),
                     perform[cut - |prep|..], (first + rest)[cut..]);
    } else {
      PreparationShape(c, id, o, 0);
      PerformShape(c, id, env);
      SeenAtTheEnd(perform, o, 0);
      SeenByConcat(prep, perform);
      SeenBeyond(first, rest, cut);
      CallKept(wf, base, r, env, 0);
      ExecAfterPerform(wf, base, r, done, env, fuel);
      assert [] + [o] == [o];
      assert seen + ([o] + SeenBy(rest[..cut - |first|])) == seen + [o] + SeenBy(rest[..cut - |first|]);
      if Unrecorded(c, o) {
        assert rest[..0] == [] && rest[0..] == [];
        InvOpen(wf, base, done);
        AfterNone(done);
        UnrecordedOnTrack(wf, done, o);
        SeenByNothing([]);
        assert seen + [o] + [] == seen + [o];
      } else {
        PerformedKeeps(wf, base, r, env);
        ExecDisciplined(wf, base, done, |seen| + 1, env, fuel - 1, cut - |first|);
        assert (seen + [o])[..|seen| + 1] == seen + [o];
      }
    }
  }

  lemma UnrecordedOnTrack(wf: Workflow, r: Row, o: Outcome)
    requires Propagates(wf) && Unrecorded(wf(Outs(Outcomes(r.history))), o)
    ensures Disciplined(wf, r, Outs(Outcomes(r.history)) + [o], [])
  {
    assert wf(Outs(Outcomes(r.history)) + [Err(o.message)]).Fail?;
  }

  /** Within the recorded outcomes, with no call next. */
  lemma StillOnTrack(wf: Workflow, r: Row, r': Row, j: nat, rest: seq<Action>)
    requires r'.history == r.history && j <= |Outcomes(r.history)| && (rest != [] ==> !rest[0].Call?)
    ensures Disciplined(wf, r', Outs(Outcomes(r.history))[..j], rest)
  {
    hide Outcomes, CallsNext;
  }

  /** An execution that starts after the first j recorded outcomes, cut anywhere. */
  ghost predicate DisciplinedFrom(wf: Workflow, r: Row, j: nat, all: seq<Action>, cut: nat)
    requires j <= |Outcomes(r.history)| && cut <= |all|
  {
    Disciplined(wf, After(r, all, cut), Outs(Outcomes(r.history))[..j] + SeenBy(all[..cut]), all[cut..])
  }

  lemma NothingDisciplined(wf: Workflow, r: Row, j: nat)
    requires r.tx.None? && j <= |Outcomes(r.history)|
    ensures DisciplinedFrom(wf, r, j, [], 0)
  {
    hide Outcomes, Outs, Disciplined, After, SeenBy;
    AfterNone(r);
    SeenByNothing([]);
    assert Outs(Outcomes(r.history))[..j] + [] == Outs(Outcomes(r.history))[..j];
    StillOnTrack(wf, r, r, j, []);
  }

  lemma SuspendedDisciplined(wf: Workflow, base: Row, r: Row, c: Call, cut: nat)
    requires Inv(wf, base, r) && !Ends(c) && cut <= |Preparation(c)|
    ensures DisciplinedFrom(wf, r, |Outcomes(r.history)|, Preparation(c), cut)
  {
    hide ApplyAll, Inv, Outcomes, Outs, Preparation, SeenBy, Disciplined, After;
    var j := |Outcomes(r.history)|;
    PreparationWidens(wf, base, r, c, "", Ok(""), cut);
    CutConcat(r, Preparation(c), [See("", Ok(""))], cut);
    PreparationShape(c, "", Ok(""), cut);
    assert Outs(Outcomes(r.history))[..j] + [] == Outs(Outcomes(r.history))[..j];
    StillOnTrack(wf, r, After(r, Preparation(c), cut), j, Preparation(c)[cut..]);
  }

  lemma PrefixStep(seen: seq<Outcome>, j: nat, tail: seq<Outcome>)
    requires j < |seen|
    ensures seen[..j] + ([seen[j]] + tail) == seen[..j + 1] + tail
    ensures seen[..j] + [] == seen[..j]
  {
  }

  /** Inside what comes before an outcome is seen. */
  lemma WithinDisciplined(wf: Workflow, r: Row, j: nat, first: seq<Action>, rest: seq<Action>, cut: nat)
    requires j < |Outcomes(r.history)| && cut < |first| && !first[cut].Call?
    requires After(r, first, cut).history == r.history && SeenBy(first[..cut]) == []
    ensures DisciplinedFrom(wf, r, j, first + rest, cut)
  {
    hide Outcomes, Outs, SeenBy, Disciplined, After;
    CutConcat(r, first, rest, cut);
    SeenWithin(first, rest, cut);
    PrefixStep(Outs(Outcomes(r.history)), j, []);
    StillOnTrack(wf, r, After(r, first, cut), j, (first + rest)[cut..]);
  }

  /** Behind the outcome number j. */
  lemma BeyondDisciplined(wf: Workflow, r: Row, next: Row, j: nat, first: seq<Action>, rest: seq<Action>, cut: nat)
    requires j < |Outcomes(r.history)| && |first| <= cut <= |first| + |rest|
    requires next == ApplyAll(r, first) && next.history == r.history
    requires SeenBy(first) == [Outs(Outcomes(r.history))[j]]
    requires DisciplinedFrom(wf, next, j + 1, rest, cut - |first|)
    ensures DisciplinedFrom(wf, r, j, first + rest, cut)
  {
    hide ApplyAll, Outcomes, Outs, SeenBy, Disciplined, After;
    CutConcat(r, first, rest, cut);
    SeenBeyond(first, rest, cut);
    PrefixStep(Outs(Outcomes(r.history)), j, SeenBy(rest[..cut - |first|]));
  }

  /** What a cached call consists of. */
  lemma CachedParts(wf: Workflow, base: Row, r: Row, c: Call, id: string, o: Outcome, cut: nat)
    requires Inv(wf, base, r) && !Ends(c)
    ensures var first := Preparation(c) + [See(id, o)];
            && ApplyAll(r, first).history == r.history && Inv(wf, base, ApplyAll(r, first)) && SeenBy(first) == [o]
            && (cut < |first| ==>
                  After(r, first, cut).history == r.history && SeenBy(first[..cut]) == [] && !first[cut].Call?)
  {
    hide ApplyAll, Inv, Preparation, SeenBy, After;
    var n := |Preparation(c)|;
    PreparationWidens(wf, base, r, c, id, o, if cut <= n then cut else 0);
    PreparationShape(c, id, o, if cut <= n then cut else 0);
  }

  lemma FromTheEnd(wf: Workflow, r: Row, all: seq<Action>, cut: nat)
    requires cut <= |all|
    requires Disciplined(wf, After(r, all, cut), Outs(Outcomes(r.history)) + SeenBy(all[..cut]), all[cut..])
    ensures DisciplinedFrom(wf, r, |Outcomes(r.history)|, all, cut)
  {
    hide Outcomes, Outs, Disciplined, After, SeenBy;
    assert Outs(Outcomes(r.history))[..|Outcomes(r.history)|] == Outs(Outcomes(r.history));
  }

  /**
   * At every cut of an execution, workflow code stands on the recorded path, and user code is
   * called only for the next call of that path, while it has no record.
   */
  lemma {:induction false} ExecDisciplined(wf: Workflow, base: Row, r: Row, j: nat, env: Env, fuel: nat, cut: nat)
    requires WellNamed(wf) && Propagates(wf) && Inv(wf, base, r) && j <= |Outcomes(r.history)|
    requires cut <= |ExecFrom(wf, r, j, env, fuel).actions|
    ensures DisciplinedFrom(wf, r, j, ExecFrom(wf, r, j, env, fuel).actions, cut)
    decreases fuel, 2
  {
    hide ApplyAll, Inv, WellNamed, Propagates, Outcomes, Outs, IdOf, CacheOf, Perform, ExecFrom, Preparation, SeenBy,
         Disciplined, DisciplinedFrom, After;
    var seen := Outs(Outcomes(r.history));
    InvOnPath(wf, base, r);
    InvOpen(wf, base, r);
    if fuel == 0 {
      ExecNothing(wf, r, j, env);
      NothingDisciplined(wf, r, j);
    } else if j < |Outcomes(r.history)| {
      ExecCached(wf, r, j, env, fuel);
      var c, id := wf(seen[..j]), IdOf(wf, seen[..j]);
      var first := Preparation(c) + [See(id, seen[j])];
      var next := ApplyAll(r, first);
      var rest := ExecFrom(wf, r, j + 1, env, fuel - 1).actions;
      CachedParts(wf, base, r, c, id, seen[j], cut);
      SameHistorySamePlan(wf, r, next, j + 1, env, fuel - 1);
      if cut < |first| {
        WithinDisciplined(wf, r, j, first, rest, cut);
      } else {
        ExecDisciplined(wf, base, next, j + 1, env, fuel - 1, cut - |first|);
        BeyondDisciplined(wf, r, next, j, first, rest, cut);
      }
    } else if Ends(wf(seen)) {
      ExecAtEnd(wf, r, env, fuel);
      NothingDisciplined(wf, r, j);
    } else if Suspends(wf(seen), IdOf(wf, seen), env) {
      ExecSuspends(wf, r, env, fuel);
      SuspendedDisciplined(wf, base, r, wf(seen), cut);
    } else {
      ExecPerformDisciplined(wf, base, r, env, fuel, cut);
      FromTheEnd(wf, r, ExecFrom(wf, r, j, env, fuel).actions, cut);
    }
  }

  // ---- Executions that only replay ----

  /** Nothing but subscribing again and handing out recorded outcomes. */
  predicate Passive(actions: seq<Action>) {
    forall i :: 0 <= i < |actions| ==> actions[i].Subscribe? || actions[i].See?
  }

  /**
   * Where workflow code ends or suspends after the recorded outcomes, an execution invokes
   * nothing and records nothing, and ends there.
   */
  lemma {:induction false} ExecReplays(wf: Workflow, r: Row, j: nat, env: Env, fuel: nat)
    requires WellNamed(wf) && OnPath(wf, r) && j <= |Outcomes(r.history)|
    requires var seen := Outs(Outcomes(r.history)); Ends(wf(seen)) || Suspends(wf(seen), IdOf(wf, seen), env)
    ensures var plan, seen := ExecFrom(wf, r, j, env, fuel), Outs(Outcomes(r.history));
            && Passive(plan.actions)
            && (|Outcomes(r.history)| - j < fuel ==>
                  plan.end == if Ends(wf(seen)) then Ending(wf(seen)) else Suspension(wf(seen), IdOf(wf, seen), env))
            && (|Outcomes(r.history)| - j >= fuel ==> plan.end == Exhausted)
    decreases fuel
  {
    hide WellNamed, OnPath, Outcomes, Outs, IdOf, ExecFrom;
    var seen := Outs(Outcomes(r.history));
    if fuel == 0 {
      ExecNothing(wf, r, j, env);
    } else if j < |Outcomes(r.history)| {
      ExecCached(wf, r, j, env, fuel);
      ExecReplays(wf, r, j + 1, env, fuel - 1);
    } else if Ends(wf(seen)) {
      ExecAtEnd(wf, r, env, fuel);
    } else {
      ExecSuspends(wf, r, env, fuel);
    }
  }

  lemma {:induction false} PassiveApplied(r: Row, actions: seq<Action>)
    requires Passive(actions)
    ensures ApplyAll(r, actions) == r.(subscriptions := ApplyAll(r, actions).subscriptions)
  {
    if actions != [] {
      PassiveApplied(r, actions[..|actions| - 1]);
    }
  }

  /** The statements workflow code can cause. */
  predicate OfWorkflow(a: Action) {
    || a.Subscribe? || a.See? || a.Call? || Buffered(a) || a.Begin? || a.Commit? || a.Rollback?
  }

  lemma TurnShape(wf: Workflow, seen: seq<Outcome>, cache: map<string, Outcome>, env: Env)
    requires !Ends(wf(seen))
    ensures forall a :: a in TurnOf(wf, seen, cache, env).actions ==> OfWorkflow(a)
  {
    hide IdOf, ActivityEvent;
  }

  lemma {:induction false} ExecShape(
    wf: Workflow, seen: seq<Outcome>, cache: map<string, Outcome>, env: Env, fuel: nat)
    ensures forall a :: a in Exec(wf, seen, cache, env, fuel).actions ==> OfWorkflow(a)
    decreases fuel
  {
    hide TurnOf, Exec, IdOf, Suspends;
    ExecStep(wf, seen, cache, env, fuel);
    if fuel > 0 && !Ends(wf(seen)) {
      var turn := TurnOf(wf, seen, cache, env);
      TurnShape(wf, seen, cache, env);
      if turn.outcome.Some? {
        ExecShape(wf, seen + [turn.outcome.value], turn.cache, env, fuel - 1);
      }
    }
  }

  // ---- Executions along a cache ----

  /** Handing out a cached outcome. */
  lemma ExecAnswered(wf: Workflow, seen: seq<Outcome>, cache: map<string, Outcome>, env: Env, fuel: nat)
    requires fuel > 0 && !Ends(wf(seen)) && IdOf(wf, seen) in cache
    ensures var o := CachedOutcome(wf(seen), cache[IdOf(wf, seen)]);
            var plan, rest := Exec(wf, seen, cache, env, fuel), Exec(wf, seen + [o], cache, env, fuel - 1);
            && plan.actions == Preparation(wf(seen)) + [See(IdOf(wf, seen), o)] + rest.actions
            && SeenBy(plan.actions) == [o] + SeenBy(rest.actions) && plan.end == rest.end
  {
    hide IdOf, SeenBy;
    var c, id := wf(seen), IdOf(wf, seen);
    var o := CachedOutcome(c, cache[id]);
    var rest := Exec(wf, seen + [o], cache, env, fuel - 1);
    SeenByConcat(Preparation(c) + [See(id, o)], rest.actions);
    PreparedSeen(c, id, o);
  }

  lemma PreparedSeen(c: Call, id: string, o: Outcome)
    ensures SeenBy(Preparation(c) + [See(id, o)]) == [o] && SeenBy(Preparation(c)) == []
    ensures Passive(Preparation(c) + [See(id, o)])
  {
    SeenByNothing(Preparation(c));
    SeenByConcat(Preparation(c), [See(id, o)]);
    assert SeenBy([]) == [] && [See(id, o)][..0] == [];
  }

  /** The second list is what the first ends with, after subscribing and handing out outcomes. */
  predicate PassiveUpTo(actions: seq<Action>, rest: seq<Action>) {
    |rest| <= |actions| && actions[|actions| - |rest|..] == rest && Passive(actions[..|actions| - |rest|])
  }

  lemma PassiveStep(front: seq<Action>, actions: seq<Action>, rest: seq<Action>)
    requires Passive(front) && PassiveUpTo(actions, rest)
    ensures PassiveUpTo(front + actions, rest)
  {
    var all, n := front + actions, |actions| - |rest|;
    assert all[|all| - |rest|..] == rest;
    assert all[..|all| - |rest|] == front + actions[..n];
  }

  /** Where the cache answers every call, an execution only replays. */
  lemma {:induction false} ExecAlong(
    wf: Workflow, cache: map<string, Outcome>, seen: seq<Outcome>, j: nat, env: Env, fuel: nat)
    requires Fed(wf, cache, seen) && j <= |seen| <= j + fuel
    ensures var plan, rest := Exec(wf, seen[..j], cache, env, fuel), Exec(wf, seen, cache, env, fuel - (|seen| - j));
            && SeenBy(plan.actions) == seen[j..] + SeenBy(rest.actions) && plan.end == rest.end
            && PassiveUpTo(plan.actions, rest.actions)
    decreases |seen| - j
  {
    hide IdOf, SeenBy, Exec, PassiveUpTo, Passive, CachedOutcome, Preparation;
    if j == |seen| {
      assert seen[..j] == seen;
      NothingInFront(Exec(wf, seen, cache, env, fuel).actions);
    } else {
      assert FedAt(wf, cache, seen, j);
      assert seen[..j] + [seen[j]] == seen[..j + 1];
      assert [seen[j]] + seen[j + 1..] == seen[j..];
      ExecAnswered(wf, seen[..j], cache, env, fuel);
      ExecAlong(wf, cache, seen, j + 1, env, fuel - 1);
      var front := Preparation(wf(seen[..j])) + [See(IdOf(wf, seen[..j]), seen[j])];
      PreparedSeen(wf(seen[..j]), IdOf(wf, seen[..j]), seen[j]);
      PassiveStep(front, Exec(wf, seen[..j + 1], cache, env, fuel - 1).actions,
        Exec(wf, seen, cache, env, fuel - (|seen| - j)).actions);
    }
  }

  lemma NothingInFront(actions: seq<Action>)
    ensures PassiveUpTo(actions, actions)
  {
    assert actions[..0] == [] && actions[0..] == actions;
  }

  lemma PassiveBoth(actions: seq<Action>, rest: seq<Action>)
    requires PassiveUpTo(actions, rest)
    ensures Passive(actions) <==> Passive(rest)
  {
    var n := |actions| - |rest|;
    assert actions == actions[..n] + rest;
    if Passive(actions) {
      forall i | 0 <= i < |rest| ensures rest[i].Subscribe? || rest[i].See? {
        assert rest[i] == actions[n + i];
      }
    }
  }
}
