/**
 * The replay engine: the loop that fills the caches from history, the loop that runs workflow
 * code against them, and the handlers that end an execution.  Each is proved to do to the
 * tables exactly what an execution of the protocol does.
 */
module Engines {
  import opened Prelude
  import opened ActivityIds
  import opened Clock
  import opened Locks
  import opened Tables
  import opened Workflows
  import opened Replay
  import opened Saga
  import opened Machine
  import opened Storage
  import opened HistoryIterators
  import opened Compensations

  const LOCK_TIMEOUT: nat := 300

  // ---- Caches ----

  /** The two caches as one: a result is looked up before an error. */
  function Merged(results: map<string, string>, errors: map<string, string>): (cache: map<string, Outcome>)
    ensures forall id :: id in cache <==> id in results || id in errors
    ensures forall id :: id in cache ==>
              cache[id] == if id in results then Ok(results[id]) else Err(errors[id])
  {
    map id | id in results.Keys + errors.Keys :: if id in results then Ok(results[id]) else Err(errors[id])
  }

  /** An id without an entry gets one. */
  lemma MergedAdds(results: map<string, string>, errors: map<string, string>, id: string, text: string)
    ensures id !in Merged(results, errors) ==>
              && Merged(results[id := text], errors) == Merged(results, errors)[id := Ok(text)]
              && Merged(results, errors[id := text]) == Merged(results, errors)[id := Err(text)]
  {
  }

  /** What has passed through the loop has no entry for the id that comes next. */
  lemma NextIsNotCached(history: seq<Event>, k: nat)
    requires UniqueIds(history) && k < |history|
    ensures history[k].activityId !in CacheOf(history[..k])
    ensures CacheOf(history[..k + 1]) ==
            if Cacheable(history[k]) then CacheOf(history[..k])[history[k].activityId := OutcomeOf(history[k])]
            else CacheOf(history[..k])
  {
    CacheIsHistory(history[..k]);
    assert history[..k + 1] == history[..k] + [history[k]];
    CacheSnoc(history[..k], history[k]);
  }

  /** The execution context: the caches of one execution, and the counters of its ids. */
  class ExecutionContext {
    const instance: string
    var activityCounts: map<string, nat>
    var cachedResults: map<string, string>
    var cachedErrors: map<string, string>
    var cacheHits: nat
    var newActivities: nat

    function Cache(): map<string, Outcome>
      reads this`cachedResults, this`cachedErrors
    {
      Merged(cachedResults, cachedErrors)
    }

    function Count(name: string): nat
      reads this`activityCounts
    {
      Get(activityCounts, name, 0)
    }

    constructor (instance: string, results: map<string, string>, errors: map<string, string>)
      ensures this.instance == instance && Cache() == Merged(results, errors) && activityCounts == map[]
      ensures cacheHits == 0 && newActivities == 0
    {
      this.instance := instance;
      cachedResults, cachedErrors, activityCounts, cacheHits, newActivities := results, errors, map[], 0, 0;
    }

    /** Counts the call, and renders its id. */
    method GenerateActivityID(name: string) returns (id: string)
      modifies this`activityCounts
      ensures id == Render(name, old(Count(name)) + 1)
      ensures forall other :: Count(other) == old(Count(other)) + if other == name then 1 else 0
    {
      activityCounts := activityCounts[name := Count(name) + 1];
      id := Render(name, activityCounts[name]);
    }

    method GetCachedResult(id: string) returns (cached: Option<Outcome>)
      modifies this`cacheHits
      ensures cached == if id in Cache() then Some(Cache()[id]) else None
      ensures cacheHits == old(cacheHits) + if cached.Some? then 1 else 0
    {
      cached := None;
      if id in cachedResults {
        cacheHits := cacheHits + 1;
        cached := Some(Ok(cachedResults[id]));
      } else if id in cachedErrors {
        cacheHits := cacheHits + 1;
        cached := Some(Err(cachedErrors[id]));
      }
    }

    method SetCachedResult(id: string, o: Outcome)
      requires id !in Cache()
      modifies this`cachedResults, this`cachedErrors
      ensures Cache() == old(Cache())[id := o]
    {
      MergedAdds(cachedResults, cachedErrors, id, if o.Ok? then o.value else o.message);
      if o.Ok? {
        cachedResults := cachedResults[id := o.value];
      } else {
        cachedErrors := cachedErrors[id := o.message];
      }
    }

    /** Records an outcome, and caches it. */
    method RecordActivityResult(storage: SqliteStorage, id: string, o: Outcome)
      requires storage.Valid() && (storage.tx.Some? ==> storage.tx.value.instance == instance) && id !in Cache()
      modifies storage, this`cachedResults, this`cachedErrors, this`newActivities
      ensures storage.Valid() && storage.Touches(instance) && storage.tx.Some? == old(storage.tx.Some?)
      ensures storage.tx.Some? ==> storage.tx.value.instance == instance
      ensures storage.Row(instance) == Apply(old(storage.Row(instance)), Append(ActivityEvent(id, o)))
      ensures Cache() == old(Cache())[id := o]
      ensures newActivities == old(newActivities) + 1
    {
      hide Apply, SqliteStorage.Row, SqliteStorage.Valid, Merged;
      newActivities := newActivities + 1;
      var event := if o.Ok? then Event(id, ActivityCompleted, Json(o.value))
                   else Event(id, ActivityFailed, Json(o.message));
      storage.AppendHistory(instance, event);
      SetCachedResult(id, o);
    }
  }

  // ---- Calls ----

  /** One more statement. */
  lemma OneMore(r: Row, done: seq<Action>, a: Action)
    ensures ApplyAll(r, done + [a]) == Apply(ApplyAll(r, done), a)
  {
    ApplySnoc(r, done, a);
  }

  lemma SilentActions(r: Row, id: string, o: Outcome)
    ensures Apply(r, Call(id)) == r && Apply(r, See(id, o)) == r
  {
  }

  lemma {:induction false} SilentTail(r: Row, done: seq<Action>, id: string, o: Outcome)
    ensures ApplyAll(r, done + [See(id, o)]) == ApplyAll(r, done)
    ensures ApplyAll(r, done + [Call(id)]) == ApplyAll(r, done)
  {
    hide Apply;
    OneMore(r, done, See(id, o));
    OneMore(r, done, Call(id));
    SilentActions(ApplyAll(r, done), id, o);
  }

  /** What executeInTransaction does before it knows how the transaction ends. */
  function Opening(id: string, o: Outcome): seq<Action> {
    [Begin, Call(id), UserWrite(id), Append(ActivityEvent(id, o))]
  }

  method OpenTransaction(ctx: ExecutionContext, storage: SqliteStorage, id: string, env: Env) returns (o: Outcome)
    requires storage.Valid() && storage.tx.None? && id !in ctx.Cache()
    modifies storage, ctx`cachedResults, ctx`cachedErrors, ctx`newActivities
    ensures storage.Valid() && storage.Touches(ctx.instance)
    ensures storage.tx.Some? && storage.tx.value.instance == ctx.instance
    ensures o == env.invoke(id)
    ensures storage.Row(ctx.instance) == ApplyAll(old(storage.Row(ctx.instance)), Opening(id, o))
    ensures ctx.Cache() == old(ctx.Cache())[id := o]
  {
    hide Apply, ApplyAll, SqliteStorage.Row, SqliteStorage.Valid, Merged;
    var i := ctx.instance;
    ghost var r := storage.Row(i);
    ghost var done: seq<Action> := [Begin];
    ApplyNone(r);
    OneMore(r, [], Begin);
    assert [] + [Begin] == [Begin];
    storage.BeginTransaction(i);
    o := env.invoke(id);
    SilentTail(r, done, id, o);
    done := done + [Call(id)];
    storage.ExecUserStatement(i, id);
    OneMore(r, done, UserWrite(id));
    done := done + [UserWrite(id)];
    ctx.RecordActivityResult(storage, id, o);
    OneMore(r, done, Append(ActivityEvent(id, o)));
    assert done + [Append(ActivityEvent(id, o))] == Opening(id, o);
  }

  /** executeInTransaction; `env.invoke` is what the activity's attempts end in. */
  method ExecuteInTransaction(
    ctx: ExecutionContext, storage: SqliteStorage, c: Call, id: string, env: Env) returns (o: Outcome)
    requires storage.Valid() && storage.tx.None? && c.Activity? && c.transactional && id !in ctx.Cache()
    modifies storage, ctx`cachedResults, ctx`cachedErrors, ctx`newActivities
    ensures storage.Valid() && storage.Touches(ctx.instance) && storage.tx.None?
    ensures o == PerformedOutcome(c, id, env)
    ensures storage.Row(ctx.instance) == ApplyAll(old(storage.Row(ctx.instance)), Perform(c, id, env))
    ensures ctx.Cache() == old(ctx.Cache())[id := o]
  {
    hide Apply, ApplyAll, SqliteStorage.Row, SqliteStorage.Valid, Merged;
    var i := ctx.instance;
    ghost var r := storage.Row(i);
    o := OpenTransaction(ctx, storage, id, env);
    ghost var done := Opening(id, o);
    if o.Err? {
      storage.RollbackTransaction();
      OneMore(r, done, Rollback);
      done := done + [Rollback];
    } else {
      if c.compensated {
        storage.AddCompensation(i, id, c.name, env.now);
        OneMore(r, done, Action.AddCompensation(id, c.name, Millis(env.now)));
        done := done + [Action.AddCompensation(id, c.name, Millis(env.now))];
      }
      var committed := storage.CommitTransaction();
      OneMore(r, done, Commit);
      done := done + [Commit];
    }
    SilentTail(r, done, id, o);
    done := done + [See(id, o)];
    assert done == InTransaction(c, id, env);
  }

  /** executeWithoutTransaction. */
  method ExecuteWithoutTransaction(
    ctx: ExecutionContext, storage: SqliteStorage, c: Call, id: string, env: Env) returns (o: Outcome)
    requires storage.Valid() && storage.tx.None? && c.Activity? && !c.transactional && id !in ctx.Cache()
    modifies storage, ctx`cachedResults, ctx`cachedErrors, ctx`newActivities
    ensures storage.Valid() && storage.Touches(ctx.instance) && storage.tx.None?
    ensures o == PerformedOutcome(c, id, env)
    ensures storage.Row(ctx.instance) == ApplyAll(old(storage.Row(ctx.instance)), Perform(c, id, env))
    ensures ctx.Cache() == old(ctx.Cache())[id := o]
  {
    hide Apply, ApplyAll, SqliteStorage.Row, SqliteStorage.Valid, Merged;
    var i := ctx.instance;
    ghost var r := storage.Row(i);
    ghost var done: seq<Action> := [Call(id)];
    o := env.invoke(id);
    ApplyNone(r);
    SilentTail(r, [], id, o);
    assert [] + [Call(id)] == [Call(id)];
    ctx.RecordActivityResult(storage, id, o);
    OneMore(r, done, Append(ActivityEvent(id, o)));
    done := done + [Append(ActivityEvent(id, o))];
    if o.Ok? && c.compensated {
      storage.AddCompensation(i, id, c.name, env.now);
      OneMore(r, done, Action.AddCompensation(id, c.name, Millis(env.now)));
      done := done + [Action.AddCompensation(id, c.name, Millis(env.now))];
    }
    SilentTail(r, done, id, o);
    done := done + [See(id, o)];
    assert done == WithoutTransaction(c, id, env);
  }

  /** Receive, where a message is pending: it is recorded under the receive's id. */
  method ReceivePending(
    ctx: ExecutionContext, storage: SqliteStorage, c: Call, id: string, env: Env) returns (o: Outcome)
    requires storage.Valid() && storage.tx.None? && c.WaitEvent? && env.pending(id).Some? && id !in ctx.Cache()
    modifies storage, ctx`cachedResults, ctx`cachedErrors, ctx`newActivities
    ensures storage.Valid() && storage.Touches(ctx.instance) && storage.tx.None?
    ensures o == PerformedOutcome(c, id, env)
    ensures storage.Row(ctx.instance) == ApplyAll(old(storage.Row(ctx.instance)), Perform(c, id, env))
    ensures ctx.Cache() == old(ctx.Cache())[id := o]
  {
    hide Apply, ApplyAll, SqliteStorage.Row, SqliteStorage.Valid, Merged;
    ghost var r := storage.Row(ctx.instance);
    o := Ok(env.pending(id).value);
    ctx.RecordActivityResult(storage, id, o);
    ApplyNone(r);
    OneMore(r, [], Append(ActivityEvent(id, o)));
    assert [] + [Append(ActivityEvent(id, o))] == [Append(ActivityEvent(id, o))];
    SilentTail(r, [Append(ActivityEvent(id, o))], id, o);
    assert [Append(ActivityEvent(id, o))] + [See(id, o)] == Perform(c, id, env);
  }

  method PerformCall(ctx: ExecutionContext, storage: SqliteStorage, c: Call, id: string, env: Env) returns (o: Outcome)
    requires storage.Valid() && storage.tx.None? && id !in ctx.Cache()
    requires c.Activity? || (c.WaitEvent? && env.pending(id).Some?)
    modifies storage, ctx`cachedResults, ctx`cachedErrors, ctx`newActivities
    ensures storage.Valid() && storage.Touches(ctx.instance) && storage.tx.None?
    ensures o == PerformedOutcome(c, id, env)
    ensures storage.Row(ctx.instance) == ApplyAll(old(storage.Row(ctx.instance)), Perform(c, id, env))
    ensures ctx.Cache() == old(ctx.Cache())[id := o]
  {
    hide Perform, ApplyAll, SqliteStorage.Row, SqliteStorage.Valid, Merged;
    if c.WaitEvent? {
      o := ReceivePending(ctx, storage, c, id, env);
    } else if c.transactional {
      o := ExecuteInTransaction(ctx, storage, c, id, env);
    } else {
      o := ExecuteWithoutTransaction(ctx, storage, c, id, env);
    }
  }

  // ---- The loop over workflow code ----

  /** Subscribe: counted like a call, and performed again by every execution. */
  method Subscribe(ctx: ExecutionContext, storage: SqliteStorage, channel: string)
    requires storage.Valid() && storage.tx.None?
    modifies storage, ctx`activityCounts
    ensures storage.Valid() && storage.Touches(ctx.instance) && storage.tx.None?
    ensures forall name :: ctx.Count(name) == old(ctx.Count(name)) + if name == "subscribe_" + channel then 1 else 0
    ensures storage.Row(ctx.instance) == Apply(old(storage.Row(ctx.instance)), Action.Subscribe(channel))
  {
    hide Apply, SqliteStorage.Row, SqliteStorage.Valid, ExecutionContext.Count, Render;
    var subscribed := ctx.GenerateActivityID("subscribe_" + channel);
    storage.SubscribeToChannel(ctx.instance, channel, Broadcast);
  }

  /** A call takes its id from the counters, and bumps them. */
  method NextId(ctx: ExecutionContext, storage: SqliteStorage, wf: Workflow, seen: seq<Outcome>) returns (id: string)
    requires storage.Valid() && storage.tx.None? && !Ends(wf(seen))
    requires forall name :: ctx.Count(name) == Counter(wf, seen, name)
    modifies storage, ctx`activityCounts
    ensures storage.Valid() && storage.Touches(ctx.instance) && storage.tx.None?
    ensures id == IdOf(wf, seen)
    ensures forall name :: ctx.Count(name) == Counter(wf, seen, name) + Bumps(wf(seen), name)
    ensures storage.Row(ctx.instance) == ApplyAll(old(storage.Row(ctx.instance)), Preparation(wf(seen)))
  {
    hide Apply, ApplyAll, SqliteStorage.Row, SqliteStorage.Valid, Render, ExecutionContext.Count, Counter;
    var c := wf(seen);
    ghost var r := storage.Row(ctx.instance);
    ApplyNone(r);
    if c.WaitEvent? {
      Subscribe(ctx, storage, c.channel);
      OneMore(r, [], Action.Subscribe(c.channel));
      assert [] + [Action.Subscribe(c.channel)] == Preparation(c);
      assert ("subscribe_" + c.channel)[0] == 's' && ("receive_" + c.channel)[0] == 'r';
    }
    id := ctx.GenerateActivityID(NameOf(c));
  }

  lemma CountersStart(ctx: ExecutionContext, wf: Workflow)
    requires ctx.activityCounts == map[]
    ensures forall name :: ctx.Count(name) == Counter(wf, [], name)
  {
  }

  lemma CounterSnoc(wf: Workflow, seen: seq<Outcome>, o: Outcome, name: string)
    ensures Counter(wf, seen + [o], name) == Counter(wf, seen, name) + Bumps(wf(seen), name)
  {
    assert (seen + [o])[..|seen|] == seen;
  }

  lemma ContinuedOnce(r: Row, done: seq<Action>, first: seq<Action>)
    ensures ApplyAll(ApplyAll(r, done), first) == ApplyAll(r, done + first)
  {
    hide Apply;
    ApplyConcat(r, done, first);
  }

  /** One call: counted, looked up, and performed if it has to be. */
  method MakeCall(ctx: ExecutionContext, storage: SqliteStorage, wf: Workflow, seen: seq<Outcome>, env: Env)
    returns (id: string, outcome: Option<Outcome>)
    requires storage.Valid() && storage.tx.None? && !Ends(wf(seen))
    requires forall name :: ctx.Count(name) == Counter(wf, seen, name)
    modifies storage, ctx
    ensures storage.Valid() && storage.Touches(ctx.instance) && storage.tx.None?
    ensures forall name :: ctx.Count(name) == Counter(wf, seen, name) + Bumps(wf(seen), name)
    ensures var turn := TurnOf(wf, seen, old(ctx.Cache()), env);
            && id == IdOf(wf, seen) && outcome == turn.outcome && ctx.Cache() == turn.cache
            && storage.Row(ctx.instance) == ApplyAll(old(storage.Row(ctx.instance)), turn.actions)
  {
    hide Apply, ApplyAll, SqliteStorage.Row, SqliteStorage.Valid, Merged, IdOf, Perform, Preparation, Bumps, Counter;
    var c := wf(seen);
    ghost var r := storage.Row(ctx.instance);
    id := NextId(ctx, storage, wf, seen);
    var cached := ctx.GetCachedResult(id);
    if cached.Some? {
      var o := CachedOutcome(c, cached.value);
      SilentTail(r, Preparation(c), id, o);
      return id, Some(o);
    } else if Suspends(c, id, env) {
      return id, None;
    }
    var o := PerformCall(ctx, storage, c, id, env);
    ContinuedOnce(r, Preparation(c), Perform(c, id, env));
    return id, Some(o);
  }

  /**
   * Runs workflow code until it ends or suspends, or for `fuel` calls: cached calls are answered
   * from the caches, others performed.  What it does is the plan Exec gives.
   */
  method RunWorkflow(ctx: ExecutionContext, storage: SqliteStorage, wf: Workflow, env: Env, fuel: nat)
    returns (end: End)
    requires storage.Valid() && storage.tx.None? && ctx.activityCounts == map[]
    modifies storage, ctx
    ensures storage.Valid() && storage.Touches(ctx.instance) && storage.tx.None?
    ensures var plan := Exec(wf, [], old(ctx.Cache()), env, fuel);
            && end == plan.end
            && storage.Row(ctx.instance) == ApplyAll(old(storage.Row(ctx.instance)), plan.actions)
  {
    hide Apply, ApplyAll, SqliteStorage.Row, SqliteStorage.Valid, Merged, Exec, IdOf, TurnOf, Bumps, Counter,
         ExecutionContext.Count,
         ExecutionContext.Cache;
    var i := ctx.instance;
    ghost var r, plan := storage.Row(i), Exec(wf, [], ctx.Cache(), env, fuel);
    ghost var done: seq<Action> := [];
    var seen: seq<Outcome>, left := [], fuel;
    ApplyNone(r);
    CountersStart(ctx, wf);
    end := Exhausted;
    assert done + plan.actions == plan.actions;
    while left > 0
      invariant storage.Valid() && storage.Touches(i) && storage.tx.None?
      invariant storage.Row(i) == ApplyAll(r, done) && end == Exhausted
      invariant forall name :: ctx.Count(name) == Counter(wf, seen, name)
      invariant var rest := Exec(wf, seen, ctx.Cache(), env, left);
                plan == Plan(done + rest.actions, rest.end)
      decreases left
    {
      var c := wf(seen);
      ExecStep(wf, seen, ctx.Cache(), env, left);
      if Ends(c) {
        assert done + [] == done;
        return Ending(c);
      }
      ghost var turn := TurnOf(wf, seen, ctx.Cache(), env);
      var id, outcome := MakeCall(ctx, storage, wf, seen, env);
      ContinuedOnce(r, done, turn.actions);
      done := done + turn.actions;
      if outcome.None? {
        return Suspension(c, id, env);
      }
      var o := outcome.value;
      forall name ensures Counter(wf, seen + [o], name) == Counter(wf, seen, name) + Bumps(wf(seen), name) {
        CounterSnoc(wf, seen, o, name);
      }
      seen, left := seen + [o], left - 1;
    }
    ExecStep(wf, seen, ctx.Cache(), env, 0);
    assert done + [] == done;
  }

  // ---- Loading the history ----

  datatype Caches = Caches(results: map<string, string>, errors: map<string, string>, events: nat)

  /** Fills the two caches, event by event, from an iterator over the history. */
  method LoadCaches(storage: SqliteStorage, i: string, answers: nat -> bool) returns (r: Result<Caches>)
    requires storage.Valid()
    ensures r.Success? ==>
              && Merged(r.value.results, r.value.errors) == CacheOf(storage.Row(i).history)
              && r.value.events == |storage.Row(i).history|
    // results and errors, by the kind of the event
    ensures r.Success? ==>
              forall e :: e in storage.Row(i).history && e.data.Json? ==>
                && (e.kind == ActivityCompleted || e.kind == ChannelMessageReceived ==>
                      e.activityId in r.value.results && r.value.results[e.activityId] == e.data.text)
                && (e.kind == ActivityFailed || e.kind == MessageTimeout ==>
                      && e.activityId !in r.value.results
                      && e.activityId in r.value.errors && r.value.errors[e.activityId] == e.data.text)
                && (e.kind == CompensationExecuted || e.kind == CompensationFailed || e.kind == WorkflowFailed ==>
                      e.activityId !in r.value.results && e.activityId !in r.value.errors)
    ensures r.Failure? ==> exists k: nat :: !answers(k)
  {
    hide Merged, HistoryIterator.Valid, HistoryIterator.Remaining, Events, CacheOf, Sound, SqliteStorage.Row,
         SqliteStorage.Valid;
    ghost var rows := Get(storage.history, i, []);
    ghost var history := Events(rows);
    RowHistory(storage, i);
    var iter := new HistoryIterator(storage, i, 1000);
    var results: map<string, string>, errors: map<string, string>, k: nat := map[], map[], 0;
    NothingCached(history);
    assert rows[0..] == rows;
    while true
      invariant iter.Valid() && iter.err == None && fresh(iter) && k <= |history| == |rows|
      invariant iter.Remaining() == rows[k..]
      invariant Merged(results, errors) == CacheOf(history[..k])
      decreases |rows| - k
    {
      var next := iter.Next(answers(k));
      if next.None? {
        break;
      }
      var event := next.value.event;
      EventAt(rows, k);
      NextIsNotCached(history, k);
      MergedAdds(results, errors, event.activityId, Text(event.data));
      if event.kind.ActivityCompleted? || event.kind.ChannelMessageReceived? {
        results := results[event.activityId := Text(event.data)];
      } else if event.kind.ActivityFailed? || event.kind.MessageTimeout? {
        errors := errors[event.activityId := Text(event.data)];
      }
      k := k + 1;
    }
    if iter.err.Some? {
      return Failure("failed to load history: " + iter.err.value);
    }
    assert rows[k..] == [] && history[..k] == history;
    CachesByKind(history, results, errors);
    return Success(Caches(results, errors, k));
  }

  lemma CachesByKind(history: seq<Event>, results: map<string, string>, errors: map<string, string>)
    requires UniqueIds(history) && Merged(results, errors) == CacheOf(history)
    ensures forall e :: e in history && e.data.Json? ==>
              && (e.kind == ActivityCompleted || e.kind == ChannelMessageReceived ==>
                    e.activityId in results && results[e.activityId] == e.data.text)
              && (e.kind == ActivityFailed || e.kind == MessageTimeout ==>
                    && e.activityId !in results
                    && e.activityId in errors && errors[e.activityId] == e.data.text)
              && (e.kind == CompensationExecuted || e.kind == CompensationFailed || e.kind == WorkflowFailed ==>
                    e.activityId !in results && e.activityId !in errors)
  {
    hide CacheOf;
    forall i | 0 <= i < |history| && history[i].data.Json?
      ensures var id, kind, text := history[i].activityId, history[i].kind, history[i].data.text;
              && (kind == ActivityCompleted || kind == ChannelMessageReceived ==>
                    id in CacheOf(history) && CacheOf(history)[id] == Ok(text))
              && (kind == ActivityFailed || kind == MessageTimeout ==>
                    id in CacheOf(history) && CacheOf(history)[id] == Err(text))
              && (kind == CompensationExecuted || kind == CompensationFailed || kind == WorkflowFailed ==>
                    id !in CacheOf(history))
    {
      CacheByKind(history, i);
    }
  }

  lemma RowHistory(storage: SqliteStorage, i: string)
    requires storage.Valid()
    ensures var rows := Get(storage.history, i, []);
            && storage.Row(i).history == Events(rows) && |Events(rows)| == |rows| && UniqueIds(Events(rows))
  {
  }

  lemma NothingCached(history: seq<Event>)
    ensures Merged(map[], map[]) == CacheOf(history[..0])
  {
  }

  lemma EventAt(rows: seq<HistoryRow>, k: nat)
    requires k < |rows|
    ensures rows[k..][0] == rows[k] && rows[k..][1..] == rows[k + 1..]
    ensures |Events(rows)| == |rows| && Events(rows)[k] == rows[k].event
  {
  }

  // ---- The engine ----

  class Engine {
    const storage: SqliteStorage
    const workerID: string
    const rollback: EngineRollback

    /** With the compensation runner the app installs. */
    constructor (storage: SqliteStorage, workerID: string, executors: Executors)
      ensures this.storage == storage && this.workerID == workerID
      ensures Ready() && rollback.executors == executors
    {
      this.storage, this.workerID := storage, workerID;
      rollback := new EngineRollback(storage, executors, true);
    }

    predicate Ready() {
      rollback.storage == storage && rollback.hasRunner
    }

    /** The environment of an execution, with this engine's compensation runner. */
    function WithRunner(env: Env): Env {
      env.(compensate := EngineErrors(rollback.executors))
    }

    method HandleTimerSuspend(i: string, id: string, expires: nat)
      requires storage.Valid() && i in storage.instances
      modifies storage
      ensures storage.Valid() && storage.Touches(i) && storage.tx == old(storage.tx)
      ensures storage.Row(i) == ApplyAll(old(storage.Row(i)), [PutTimer(id, Seconds(expires)), SetStatus(WaitingForTimer)])
    {
      hide Apply, ApplyAll, SqliteStorage.Row, SqliteStorage.Valid;
      storage.RegisterTimerSubscription(i, id, expires);
      storage.UpdateInstanceStatus(i, WaitingForTimer);
      ApplyPair(old(storage.Row(i)), PutTimer(id, Seconds(expires)), SetStatus(WaitingForTimer));
    }

    method HandleRecurSuspend(i: string, input: string)
      requires storage.Valid() && storage.tx.None? && i in storage.instances
      modifies storage
      ensures storage.Valid() && storage.Touches(i) && storage.tx.None?
      ensures storage.Row(i) == ApplyAll(old(storage.Row(i)), CLEARING + [Append(RecurEvent(input)), SetStatus(Recurred)])
    {
      hide Apply, ApplyAll, SqliteStorage.Row, SqliteStorage.Valid;
      ghost var r := storage.Row(i);
      storage.ArchiveHistory(i);
      storage.CleanupInstanceSubscriptions(i);
      ApplyConcat(r, [CopyToArchive, ClearHistory], [DropTimers, DropSubscriptions]);
      assert [CopyToArchive, ClearHistory] + [DropTimers, DropSubscriptions] == CLEARING;
      storage.AppendHistory(i, RecurEvent(input));
      storage.UpdateInstanceStatus(i, Recurred);
      ApplyPair(ApplyAll(r, CLEARING), Append(RecurEvent(input)), SetStatus(Recurred));
      ApplyConcat(r, CLEARING, [Append(RecurEvent(input)), SetStatus(Recurred)]);
    }

    /** What is done about a failure: without its queries answered, the rollback is passed over. */
    ghost function Undoing(r: Row, answers: nat -> bool): seq<Action> {
      if rollback.RollsBack(r, answers) then RollbackActions(r, EngineErrors(rollback.executors)) else []
    }

    /**
     * Rolls back, records the failure, and marks the instance failed.  The last two follow in any
     * case: if a query of the rollback fails, they stand alone, and nothing is compensated.
     */
    method Fail(i: string, message: string, answers: nat -> bool)
      requires Ready() && storage.Valid() && storage.tx.None? && i in storage.instances
      modifies storage
      ensures storage.Valid() && storage.Touches(i) && storage.tx.None?
      ensures storage.Row(i) == ApplyAll(old(storage.Row(i)),
                Undoing(old(storage.Row(i)), answers) + [Append(FailureEvent(message)), SetStatus(Failed)])
      ensures (forall k :: answers(k)) ==>
                storage.Row(i) == ApplyAll(old(storage.Row(i)),
                  RollbackActions(old(storage.Row(i)), EngineErrors(rollback.executors))
                  + [Append(Event("", WorkflowFailed, Json(message))), SetStatus(Failed)])
    {
      hide Apply, ApplyAll, SqliteStorage.Row, SqliteStorage.Valid, RollbackActions, Called, Failing, Todo,
           EngineRollback.RollsBack;
      ghost var r := storage.Row(i);
      var compErr, called := rollback.ExecuteCompensations(i, answers);
      ghost var mid := storage.Row(i);
      ApplyNone(r);
      if forall k :: answers(k) {
        rollback.AnsweredRollsBack(r, answers);
      }
      assert mid == ApplyAll(r, Undoing(r, answers));
      storage.AppendHistory(i, FailureEvent(message));
      storage.UpdateInstanceStatus(i, Failed);
      ApplyPair(mid, Append(FailureEvent(message)), SetStatus(Failed));
      ApplyConcat(r, Undoing(r, answers), [Append(FailureEvent(message)), SetStatus(Failed)]);
    }

    method Complete(i: string, value: string)
      requires storage.Valid() && i in storage.instances
      modifies storage
      ensures storage.Valid() && storage.Touches(i) && storage.tx == old(storage.tx)
      ensures storage.Row(i) == ApplyAll(old(storage.Row(i)), [SetOutput(value), SetStatus(Completed)])
    {
      hide Apply, ApplyAll, SqliteStorage.Row, SqliteStorage.Valid;
      storage.UpdateInstanceOutput(i, value);
      storage.UpdateInstanceStatus(i, Completed);
      ApplyPair(old(storage.Row(i)), SetOutput(value), SetStatus(Completed));
    }

    /** The conclusion of an execution, but for a rollback whose queries fail. */
    ghost function Concluding(r: Row, end: End, env: Env, answers: nat -> bool): seq<Action> {
      if end.Raised? then Undoing(r, answers) + [Append(FailureEvent(end.message)), SetStatus(Failed), ReleaseBy(workerID)]
      else Conclusion(r, end, workerID, WithRunner(env))
    }

    /** What executeWorkflow does once workflow code has stopped; the lock is released last. */
    method Conclude(i: string, end: End, env: Env, answers: nat -> bool)
      requires Ready() && storage.Valid() && storage.tx.None? && i in storage.instances
      modifies storage
      ensures storage.Valid() && storage.Touches(i) && storage.tx.None?
      ensures storage.Row(i) == ApplyAll(old(storage.Row(i)), Concluding(old(storage.Row(i)), end, env, answers))
    {
      hide Apply, ApplyAll, SqliteStorage.Row, SqliteStorage.Valid, RollbackActions, Undoing;
      ghost var r := storage.Row(i);
      ghost var first: seq<Action> := [];
      ApplyNone(r);
      if end.Exhausted? {
        return;
      } else if end.Returned? {
        Complete(i, end.value);
        first := [SetOutput(end.value), SetStatus(Completed)];
      } else if end.Raised? {
        Fail(i, end.message, answers);
        first := Undoing(r, answers) + [Append(FailureEvent(end.message)), SetStatus(Failed)];
      } else if end.Recurs? {
        HandleRecurSuspend(i, end.input);
        first := CLEARING + [Append(RecurEvent(end.input)), SetStatus(Recurred)];
      } else if end.SleepsUntil? {
        HandleTimerSuspend(i, end.id, end.expires);
        first := [PutTimer(end.id, Seconds(end.expires)), SetStatus(WaitingForTimer)];
      } else {
        storage.RegisterChannelReceiveAndReleaseLock(i, end.channel, workerID, end.id, end.timeoutAt);
        ghost var wait := SetWaiting(end.channel, Wait(end.id, StoredTimeout(end.timeoutAt)));
        ReleasedTwice(r, wait, SetStatus(WaitingForMessage), workerID);
        storage.ReleaseLock(i, workerID);
        return;
      }
      storage.ReleaseLock(i, workerID);
      OneMore(r, first, ReleaseBy(workerID));
      assert first + [ReleaseBy(workerID)] == Concluding(r, end, env, answers);
    }

    /** The statements of an execution with the given answers to its rollback's queries. */
    ghost function Executing(wf: Workflow, r: Row, env: Env, fuel: nat, answers: nat -> bool): seq<Action> {
      var plan := Exec(wf, [], CacheOf(r.history), WithRunner(env), fuel);
      plan.actions + Concluding(ApplyAll(r, plan.actions), plan.end, env, answers)
    }

    /** The execution does not end in a rollback with a failed query. */
    ghost predicate Answered(wf: Workflow, r: Row, env: Env, fuel: nat, answers: nat -> bool) {
      var plan := Exec(wf, [], CacheOf(r.history), WithRunner(env), fuel);
      plan.end.Raised? ==> rollback.RollsBack(ApplyAll(r, plan.actions), answers)
    }

    /** With every query answered it never does. */
    lemma AlwaysAnswered(wf: Workflow, r: Row, env: Env, fuel: nat, answers: nat -> bool)
      requires Ready() && forall k :: answers(k)
      ensures Answered(wf, r, env, fuel, answers)
    {
      hide Exec, ApplyAll, CacheOf, EngineRollback.RollsBack;
      var plan := Exec(wf, [], CacheOf(r.history), WithRunner(env), fuel);
      rollback.AnsweredRollsBack(ApplyAll(r, plan.actions), answers);
    }

    lemma AnsweredExecution(wf: Workflow, r: Row, env: Env, fuel: nat, answers: nat -> bool)
      requires Answered(wf, r, env, fuel, answers)
      ensures Executing(wf, r, env, fuel, answers) == ExecutionActions(wf, r, workerID, WithRunner(env), fuel)
    {
      hide Exec, ApplyAll, RollbackActions, CacheOf, EngineRollback.RollsBack;
    }

    /** Loads the history, runs workflow code over it, and concludes; a failed load changes nothing. */
    method ExecuteWorkflow(
      i: string, wf: Workflow, env: Env, fuel: nat, loads: nat -> bool, answers: nat -> bool) returns (r: Result<End>)
      requires Ready() && storage.Valid() && storage.tx.None? && i in storage.instances
      modifies storage
      ensures storage.Valid() && storage.Touches(i) && storage.tx.None?
      ensures r.Failure? ==> storage.Row(i) == old(storage.Row(i)) && exists k: nat :: !loads(k)
      ensures r.Success? ==>
                storage.Row(i) == ApplyAll(old(storage.Row(i)), Executing(wf, old(storage.Row(i)), env, fuel, answers))
      ensures (forall k :: loads(k) && answers(k)) ==>
                storage.Row(i) ==
                ApplyAll(old(storage.Row(i)), ExecutionActions(wf, old(storage.Row(i)), workerID, WithRunner(env), fuel))
    {
      hide Apply, ApplyAll, SqliteStorage.Row, SqliteStorage.Valid, Exec, Merged, Concluding, CacheOf;
      ghost var row := storage.Row(i);
      var caches := LoadCaches(storage, i, loads);
      if caches.Failure? {
        return Failure(caches.error);
      }
      var ctx := new ExecutionContext(i, caches.value.results, caches.value.errors);
      var end := RunWorkflow(ctx, storage, wf, WithRunner(env), fuel);
      ghost var plan := Exec(wf, [], CacheOf(row.history), WithRunner(env), fuel);
      ghost var done := storage.Row(i);
      Conclude(i, end, env, answers);
      ApplyConcat(row, plan.actions, Concluding(done, plan.end, env, answers));
      if forall k :: loads(k) && answers(k) {
        AlwaysAnswered(wf, row, env, fuel, answers);
        AnsweredExecution(wf, row, env, fuel, answers);
      }
      return Success(end);
    }

    function LeaseEnd(clock: nat): nat {
      Seconds(clock + LOCK_TIMEOUT * SECOND)
    }

    /** The step of the protocol that a resumption is. */
    ghost function Resumption(clock: nat, env: Env, fuel: nat): Step {
      Resuming(workerID, LeaseEnd(clock), WithRunner(env), fuel)
    }

    /** What a resumption with the lock leaves. */
    ghost function Resumed(
      wf: Workflow, r: Row, env: Env, fuel: nat, clock: nat, loaded: bool, answers: nat -> bool): Row
    {
      if !loaded then ApplyAll(r, [Acquire(workerID, LeaseEnd(clock)), SetStatus(Running), ReleaseBy(workerID)])
      else ApplyAll(r, [Acquire(workerID, LeaseEnd(clock)), SetStatus(Running)]
                       + Executing(wf, Started(r, workerID, LeaseEnd(clock)), env, fuel, answers))
    }

    /** ResumeWorkflow, and StartWorkflow alike: lock, set running, execute, release. */
    method ResumeWorkflow(
      i: string, wf: Workflow, env: Env, fuel: nat, clock: nat, now: nat, loads: nat -> bool, answers: nat -> bool)
      returns (acquired: bool, loaded: bool)
      requires Ready() && storage.Valid() && storage.tx.None?
      modifies storage
      ensures storage.Valid() && storage.Touches(i) && storage.tx.None?
      ensures acquired == (i in storage.instances && Available(old(storage.Row(i)).lock, workerID, now))
      ensures !loaded ==> !acquired || exists k: nat :: !loads(k)
      ensures var r := old(storage.Row(i));
              storage.Row(i) == if acquired then Resumed(wf, r, env, fuel, clock, loaded, answers) else r
    {
      hide Apply, ApplyAll, SqliteStorage.Row, SqliteStorage.Valid, Executing, RollbackActions, ExecutionActions,
           Engine.WithRunner;
      ghost var r := storage.Row(i);
      ghost var expires := LeaseEnd(clock);
      ghost var first := [Acquire(workerID, expires), SetStatus(Running)];
      acquired := storage.TryAcquireLock(i, workerID, LOCK_TIMEOUT, clock, now);
      if !acquired {
        return false, false;
      }
      storage.UpdateInstanceStatus(i, Running);
      ApplyPair(r, first[0], first[1]);
      StartedRow(r, workerID, expires);
      var result := ExecuteWorkflow(i, wf, env, fuel, loads, answers);
      loaded := result.Success?;
      if !loaded {
        storage.ReleaseLock(i, workerID);
        OneMore(r, first, ReleaseBy(workerID));
        assert first + [ReleaseBy(workerID)] == [Acquire(workerID, expires), SetStatus(Running), ReleaseBy(workerID)];
      } else {
        ApplyConcat(r, first, Executing(wf, Started(r, workerID, expires), env, fuel, answers));
      }
    }

    /**
     * A resumption is a complete step of the protocol: the resuming step if its queries are
     * answered, and what a restart does if the history cannot be loaded.
     */
    lemma ResumptionIsStep(
      wf: Workflow, w: World, env: Env, fuel: nat, clock: nat, answers: nat -> bool)
      requires w.row.tx.None? && Available(w.row.lock, workerID, w.now)
      ensures Crash(Resumed(wf, w.row, env, fuel, clock, false, answers)) ==
              Next(wf, w, Restarting(workerID, LeaseEnd(clock)), 3).row
      ensures Answered(wf, Started(w.row, workerID, LeaseEnd(clock)), env, fuel, answers) ==>
                var step := Resumption(clock, env, fuel);
                Crash(Resumed(wf, w.row, env, fuel, clock, true, answers)) == Next(wf, w, step, |Actions(wf, w, step)|).row
    {
      hide ApplyAll, Answered, Executing, ExecutionActions, Apply;
      var restart, step := Restarting(workerID, LeaseEnd(clock)), Resumption(clock, env, fuel);
      CompleteStep(wf, w, restart);
      if Answered(wf, Started(w.row, workerID, LeaseEnd(clock)), env, fuel, answers) {
        AnsweredExecution(wf, Started(w.row, workerID, LeaseEnd(clock)), env, fuel, answers);
        CompleteStep(wf, w, step);
      }
    }
  }

  lemma StartedRow(r: Row, worker: string, expires: nat)
    ensures Apply(Apply(r, Acquire(worker, expires)), SetStatus(Running)) == Started(r, worker, expires)
  {
  }

  /** The tables after a complete step of the protocol. */
  lemma CompleteStep(wf: Workflow, w: World, step: Step)
    requires !step.Polling? && !step.Passing?
    ensures Next(wf, w, step, |Actions(wf, w, step)|).row == Crash(ApplyAll(w.row, Actions(wf, w, step)))
  {
    hide Actions, ApplyAll;
    var all := Actions(wf, w, step);
    assert all[..|all|] == all;
  }

  /** Releasing a lock once more changes nothing. */
  lemma ReleasedTwice(r: Row, a: Action, b: Action, worker: string)
    ensures Apply(ApplyAll(r, [a, b, ReleaseBy(worker)]), ReleaseBy(worker)) == ApplyAll(r, [a, b, ReleaseBy(worker)])
  {
    ReleasedOnce(Apply(Apply(r, a), b), worker);
    ApplyThree(r, a, b, ReleaseBy(worker));
  }

  lemma ReleasedOnce(r: Row, worker: string)
    ensures Apply(Apply(r, ReleaseBy(worker)), ReleaseBy(worker)) == Apply(r, ReleaseBy(worker))
  {
  }
}