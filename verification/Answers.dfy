/**
 * What workflow code is told: by its next call, and by every replay of what was recorded - of an
 * activity, a message, a timeout, a timer.
 */
module Answers {
  import opened Prelude
  import opened ActivityIds
  import opened Clock
  import opened Locks
  import opened Tables
  import opened Workflows
  import opened Replay
  import opened Saga
  import opened Machine
  import opened Integrity
  import opened Safety
  import opened CallOrder

  // ---- The ids of calls ----

  /** The calls that led to `seen` and have that name. */
  function CallsOfName(wf: Workflow, seen: seq<Outcome>, name: string): set<nat> {
    set j: nat | j < |seen| && !Ends(wf(seen[..j])) && NameOf(wf(seen[..j])) == name
  }

  /** The receives among them whose subscription has that name: every receive also subscribes. */
  function SubscriptionsOfName(wf: Workflow, seen: seq<Outcome>, name: string): set<nat> {
    set j: nat | j < |seen| && wf(seen[..j]).WaitEvent? && "subscribe_" + wf(seen[..j]).channel == name
  }

  lemma CallsSnoc(wf: Workflow, seen: seq<Outcome>, name: string)
    requires seen != []
    ensures var init, last := seen[..|seen| - 1], |seen| - 1;
            var calls, subscriptions := CallsOfName(wf, init, name), SubscriptionsOfName(wf, init, name);
            && last !in calls && last !in subscriptions
            && CallsOfName(wf, seen, name) ==
                 calls + (if !Ends(wf(init)) && NameOf(wf(init)) == name then {last} else {})
            && SubscriptionsOfName(wf, seen, name) ==
                 subscriptions + if wf(init).WaitEvent? && "subscribe_" + wf(init).channel == name then {last} else {}
  {
    var init := seen[..|seen| - 1];
    assert forall j: nat :: j < |init| ==> init[..j] == seen[..j];
  }

  lemma {:induction false} CounterIsCalls(wf: Workflow, seen: seq<Outcome>, name: string)
    ensures Counter(wf, seen, name) == |CallsOfName(wf, seen, name)| + |SubscriptionsOfName(wf, seen, name)|
  {
    hide NameOf;
    if seen == [] {
      assert CallsOfName(wf, seen, name) == {} && SubscriptionsOfName(wf, seen, name) == {};
    } else {
      CounterIsCalls(wf, seen[..|seen| - 1], name);
      CallsSnoc(wf, seen, name);
    }
  }

  /**
   * The id of a call is its name, a colon, and a number: one more than there were calls and
   * subscriptions of that name before.
   */
  lemma IdNumbersCalls(wf: Workflow, seen: seq<Outcome>)
    requires !Ends(wf(seen))
    ensures var c := wf(seen);
            var name := if c.Activity? then c.name else if c.Sleep? then "sleep" else "receive_" + c.channel;
            IdOf(wf, seen) ==
              name + ":" + Decimal(|CallsOfName(wf, seen, name)| + |SubscriptionsOfName(wf, seen, name)| + 1)
  {
    CounterIsCalls(wf, seen, NameOf(wf(seen)));
  }

  // ---- What is seen of a record ----

  /** Outcomes the cache feeds are what an execution sees first. */
  lemma SeesFed(wf: Workflow, cache: map<string, Outcome>, seen: seq<Outcome>, env: Env, fuel: nat)
    requires Fed(wf, cache, seen) && |seen| <= fuel
    ensures seen <= SeenBy(Exec(wf, [], cache, env, fuel).actions)
  {
    hide Fed, SeenBy, Exec, PassiveUpTo;
    assert seen[..0] == [] && seen[0..] == seen;
    ExecAlong(wf, cache, seen, 0, env, fuel);
  }

  /**
   * What a record tells.  Take any record of an instance, and any outcomes its records feed up to
   * the call the record answers.  Whatever happens to the instance in the iteration, every execution
   * that gets as far sees these, and then: of a sleep nothing, else of a completed activity and of a
   * message the text as a result, of a failed activity and of a timeout the text as an error.
   */
  lemma RecordIsSeen(wf: Workflow, w: World, moves: seq<Move>, i: nat, seen: seq<Outcome>, env: Env, fuel: nat)
    requires w.row.tx.None? && UniqueIds(w.row.history) && Reached(wf, w, moves).iteration == w.iteration
    requires Fed(wf, CacheOf(w.row.history), seen) && !Ends(wf(seen)) && |seen| < fuel
    requires i < |w.row.history| && w.row.history[i].activityId == IdOf(wf, seen) && w.row.history[i].data.Json?
    requires Cacheable(w.row.history[i])
    ensures var e := w.row.history[i];
            var got := SeenBy(Exec(wf, [], CacheOf(Reached(wf, w, moves).row.history), env, fuel).actions);
            && |got| > |seen| && got[..|seen|] == seen
            && got[|seen|] == if wf(seen).Sleep? then Ok("")
                              else if e.kind == ActivityCompleted || e.kind == ChannelMessageReceived then Ok(e.data.text)
                              else Err(e.data.text)
  {
    hide Reached, CacheOf, Fed, SeenBy, Exec, IdOf, UniqueIds;
    var history, later := w.row.history, Reached(wf, w, moves).row.history;
    RunGrows(wf, w, moves);
    RunUnique(wf, w, moves);
    CacheGrows(history, later);
    CacheByKind(later, i);
    FedExtends(wf, CacheOf(history), CacheOf(later), seen);
    var o := CachedOutcome(wf(seen), CacheOf(later)[IdOf(wf, seen)]);
    FedSnoc(wf, CacheOf(later), seen, o);
    SeesFed(wf, CacheOf(later), seen + [o], env, fuel);
    assert (seen + [o])[..|seen|] == seen && (seen + [o])[|seen|] == o;
  }

  /** The same of a record a step adds. */
  lemma NewRecordIsSeen(
    wf: Workflow, w: World, w': World, e: Event, moves: seq<Move>, seen: seq<Outcome>, env: Env, fuel: nat)
    requires w.row.tx.None? && UniqueIds(w.row.history) && w'.row.tx.None? && w'.iteration == w.iteration
    requires !HasId(w.row.history, e.activityId) && w'.row.history == w.row.history + [e]
    requires Reached(wf, w', moves).iteration == w.iteration
    requires Fed(wf, CacheOf(w.row.history), seen) && !Ends(wf(seen)) && |seen| < fuel
    requires e.activityId == IdOf(wf, seen) && e.data.Json? && Cacheable(e)
    ensures var got := SeenBy(Exec(wf, [], CacheOf(Reached(wf, w', moves).row.history), env, fuel).actions);
            && |got| > |seen| && got[..|seen|] == seen
            && got[|seen|] == if wf(seen).Sleep? then Ok("")
                              else if e.kind == ActivityCompleted || e.kind == ChannelMessageReceived then Ok(e.data.text)
                              else Err(e.data.text)
  {
    hide Reached, CacheOf, Fed, SeenBy, Exec, IdOf, Cacheable;
    OneMoreUnique(w.row.history, e);
    CacheGrows(w.row.history, w'.row.history);
    FedExtends(wf, CacheOf(w.row.history), CacheOf(w'.row.history), seen);
    RecordIsSeen(wf, w', moves, |w.row.history|, seen, env, fuel);
  }

  lemma OneMoreUnique(history: seq<Event>, e: Event)
    requires UniqueIds(history) && !HasId(history, e.activityId)
    ensures UniqueIds(history + [e])
  {
  }

  // ---- Messages, timeouts, timers ----

  /**
   * A delivered message arrives.  A delivery to an instance that waits for it, cut anywhere from its
   * record on, has added exactly the message with its text under the id of the wait; and whatever
   * happens afterwards in the iteration, every execution that gets to that receive is given the text.
   */
  lemma DeliveryIsSeen(
    wf: Workflow, w: World, step: Step, cut: nat, moves: seq<Move>, seen: seq<Outcome>, env: Env, fuel: nat)
    requires w.row.tx.None? && UniqueIds(w.row.history) && step.Delivering? && Acts(w, step) && 2 <= cut
    requires step.channel in w.row.subscriptions && w.row.subscriptions[step.channel].Some?
    requires var id := w.row.subscriptions[step.channel].value.activityId; id != "" && !HasId(w.row.history, id)
    requires Reached(wf, Next(wf, w, step, cut), moves).iteration == w.iteration
    requires Fed(wf, CacheOf(w.row.history), seen) && |seen| < fuel && wf(seen).WaitEvent?
    requires IdOf(wf, seen) == w.row.subscriptions[step.channel].value.activityId
    ensures var w', id := Next(wf, w, step, cut), w.row.subscriptions[step.channel].value.activityId;
            var got := SeenBy(Exec(wf, [], CacheOf(Reached(wf, w', moves).row.history), env, fuel).actions);
            && w'.row.history == w.row.history + [Event(id, ChannelMessageReceived, Json(step.text))]
            && |got| > |seen| && got[..|seen|] == seen && got[|seen|] == Ok(step.text)
  {
    hide Reached, CacheOf, Fed, SeenBy, Exec, IdOf, HasId, UniqueIds, ApplyAll;
    var id := w.row.subscriptions[step.channel].value.activityId;
    var e := Event(id, ChannelMessageReceived, Json(step.text));
    var all := AnswerActions(step.worker, step.expires, e, step.channel);
    assert Actions(wf, w, step) == all;
    AnswerRows(w.row, step.worker, step.expires, e, step.channel, Clip(cut, all));
    NewRecordIsSeen(wf, w, Next(wf, w, step, cut), e, moves, seen, env, fuel);
  }

  /** A receive that has timed out is given the error, and no later message. */
  lemma TimeoutIsSeen(
    wf: Workflow, w: World, step: Step, cut: nat, moves: seq<Move>, seen: seq<Outcome>, env: Env, fuel: nat)
    requires w.row.tx.None? && UniqueIds(w.row.history) && step.TimingOut? && Acts(w, step) && 2 <= cut
    requires !HasId(w.row.history, step.id)
    requires Reached(wf, Next(wf, w, step, cut), moves).iteration == w.iteration
    requires Fed(wf, CacheOf(w.row.history), seen) && |seen| < fuel && wf(seen).WaitEvent? && IdOf(wf, seen) == step.id
    ensures var w' := Next(wf, w, step, cut);
            var got := SeenBy(Exec(wf, [], CacheOf(Reached(wf, w', moves).row.history), env, fuel).actions);
            && w'.row.history == w.row.history + [Event(step.id, MessageTimeout, Json(step.text))]
            && |got| > |seen| && got[..|seen|] == seen && got[|seen|] == Err(step.text)
  {
    hide Reached, CacheOf, Fed, SeenBy, Exec, IdOf, HasId, UniqueIds, ApplyAll;
    var e := Event(step.id, MessageTimeout, Json(step.text));
    var all := AnswerActions(step.worker, step.expires, e, step.channel);
    assert Actions(wf, w, step) == all;
    AnswerRows(w.row, step.worker, step.expires, e, step.channel, Clip(cut, all));
    NewRecordIsSeen(wf, w, Next(wf, w, step, cut), e, moves, seen, env, fuel);
  }

  /** A sleep whose timer has fired is over. */
  lemma FiringIsSeen(
    wf: Workflow, w: World, step: Step, cut: nat, moves: seq<Move>, seen: seq<Outcome>, env: Env, fuel: nat)
    requires w.row.tx.None? && UniqueIds(w.row.history) && step.Firing? && Acts(w, step) && 3 <= cut
    requires !HasId(w.row.history, step.id)
    requires Reached(wf, Next(wf, w, step, cut), moves).iteration == w.iteration
    requires Fed(wf, CacheOf(w.row.history), seen) && |seen| < fuel && wf(seen).Sleep? && IdOf(wf, seen) == step.id
    ensures var w' := Next(wf, w, step, cut);
            var got := SeenBy(Exec(wf, [], CacheOf(Reached(wf, w', moves).row.history), env, fuel).actions);
            && w'.row.history == w.row.history + [Event(step.id, ActivityCompleted, Json(""))]
            && |got| > |seen| && got[..|seen|] == seen && got[|seen|] == Ok("")
  {
    hide Reached, CacheOf, Fed, SeenBy, Exec, IdOf, HasId, UniqueIds, ApplyAll;
    var e := Event(step.id, ActivityCompleted, Json(""));
    var a, b := Acquire(step.worker, step.expires), DropTimer(step.id);
    assert Actions(wf, w, step) == [a, b, Append(e)];
    WalkThree(w.row, a, b, Append(e), 3);
    NewRecordIsSeen(wf, w, Next(wf, w, step, cut), e, moves, seen, env, fuel);
  }

  // ---- The next call ----

  /** An execution with one call more than its records feed makes the next turn, and no other. */
  lemma OneTurn(wf: Workflow, r: Row, seen: seq<Outcome>, env: Env)
    requires r.tx.None? && Fed(wf, CacheOf(r.history), seen) && !Ends(wf(seen))
    ensures var plan, turn := Exec(wf, [], CacheOf(r.history), env, |seen| + 1), TurnOf(wf, seen, CacheOf(r.history), env);
            && SeenBy(plan.actions) == seen + SeenBy(turn.actions)
            && PassiveUpTo(plan.actions, turn.actions)
            && plan.end == if turn.outcome.Some? then Exhausted else Suspension(wf(seen), IdOf(wf, seen), env)
  {
    hide Fed, SeenBy, Exec, PassiveUpTo, CacheOf, TurnOf, IdOf, Suspends;
    var cache := CacheOf(r.history);
    assert seen[..0] == [] && seen[0..] == seen;
    ExecAlong(wf, cache, seen, 0, env, |seen| + 1);
    ExecStep(wf, seen, cache, env, 1);
    var turn := TurnOf(wf, seen, cache, env);
    if turn.outcome.Some? {
      ExecStep(wf, seen + [turn.outcome.value], turn.cache, env, 0);
      assert turn.actions + [] == turn.actions;
    }
  }

  /** Subscribing again and handing out outcomes leaves all but the subscriptions alone. */
  lemma UpTo(r: Row, actions: seq<Action>, rest: seq<Action>) returns (r0: Row)
    requires r.tx.None? && PassiveUpTo(actions, rest)
    ensures r0 == r.(subscriptions := r0.subscriptions) && ApplyAll(r, actions) == ApplyAll(r0, rest)
  {
    hide ApplyAll;
    var n := |actions| - |rest|;
    assert actions == actions[..n] + rest;
    PassiveApplied(r, actions[..n]);
    ApplyConcat(r, actions[..n], rest);
    r0 := ApplyAll(r, actions[..n]);
  }

  /** An activity's execution is recorded, with what belongs to it, and workflow code sees its outcome. */
  lemma ActivityIsPerformed(wf: Workflow, r: Row, seen: seq<Outcome>, env: Env)
    requires r.tx.None? && Fed(wf, CacheOf(r.history), seen) && wf(seen).Activity?
    requires IdOf(wf, seen) !in CacheOf(r.history) && !HasId(r.history, IdOf(wf, seen))
    ensures var c, id := wf(seen), IdOf(wf, seen);
            var o, plan := env.invoke(id), Exec(wf, [], CacheOf(r.history), env, |seen| + 1);
            var r' := ApplyAll(r, plan.actions);
            var kept := o.Ok? || !c.transactional;
            && SeenBy(plan.actions) == seen + [o] && plan.end == Exhausted
            && r'.history == r.history + (
                 if !kept then []
                 else if o.Ok? then [Event(id, ActivityCompleted, Json(o.value))]
                 else [Event(id, ActivityFailed, Json(o.message))])
            && r'.userRows == r.userRows + (if c.transactional && o.Ok? then [id] else [])
            && r'.compensations == r.compensations + (
                 if o.Ok? && c.compensated then [Compensation(r.nextCompensation, id, c.name, env.now / 1_000_000)] else [])
            && r' == r.(history := r'.history, userRows := r'.userRows, compensations := r'.compensations,
                        nextCompensation := r'.nextCompensation, subscriptions := r'.subscriptions)
  {
    hide ApplyAll, Fed, SeenBy, Exec, PassiveUpTo, CacheOf, IdOf, HasId, Perform, Write;
    var c, id, cache := wf(seen), IdOf(wf, seen), CacheOf(r.history);
    var turn := TurnOf(wf, seen, cache, env);
    OneTurn(wf, r, seen, env);
    TurnSeen(wf, seen, cache, env);
    assert turn.actions == Perform(c, id, env) by { assert [] + Perform(c, id, env) == Perform(c, id, env); }
    var r0 := UpTo(r, Exec(wf, [], cache, env, |seen| + 1).actions, turn.actions);
    PerformRows(r0, c, id, env, 0);
    PerformedColumns(r0, c, id, env);
  }

  lemma PerformedColumns(r: Row, c: Call, id: string, env: Env)
    requires c.Activity? && r.tx.None? && !HasId(r.history, id)
    ensures var r', o := Performed(r, c, id, env), env.invoke(id);
            && r'.history == r.history + (
                 if o.Ok? then [Event(id, ActivityCompleted, Json(o.value))]
                 else if c.transactional then [] else [Event(id, ActivityFailed, Json(o.message))])
            && r'.userRows == r.userRows + (if c.transactional && o.Ok? then [id] else [])
            && r'.compensations == r.compensations + (
                 if o.Ok? && c.compensated then [Compensation(r.nextCompensation, id, c.name, env.now / 1_000_000)] else [])
            && r' == r.(history := r'.history, userRows := r'.userRows, compensations := r'.compensations,
                        nextCompensation := r'.nextCompensation)
  {
    hide HasId;
    assert r.userRows + [] == r.userRows && r.compensations + [] == r.compensations && r.history + [] == r.history;
  }

  /**
   * A receive for which a message is pending takes it, under its own id.  One without suspends: on
   * its channel, under its id, until the clock of the execution plus its timeout, if it has one.
   */
  lemma ReceiveIsPerformed(wf: Workflow, r: Row, seen: seq<Outcome>, env: Env)
    requires r.tx.None? && Fed(wf, CacheOf(r.history), seen) && wf(seen).WaitEvent?
    requires IdOf(wf, seen) !in CacheOf(r.history) && !HasId(r.history, IdOf(wf, seen))
    ensures var c, id := wf(seen), IdOf(wf, seen);
            var message, plan := env.pending(id), Exec(wf, [], CacheOf(r.history), env, |seen| + 1);
            var r' := ApplyAll(r, plan.actions);
            && r' == r.(history := r'.history, subscriptions := r'.subscriptions) && c.channel in r'.subscriptions
            && (message.Some? ==>
                  && SeenBy(plan.actions) == seen + [Ok(message.value)] && plan.end == Exhausted
                  && r'.history == r.history + [Event(id, ActivityCompleted, Json(message.value))])
            && (message.None? ==>
                  && SeenBy(plan.actions) == seen && r'.history == r.history
                  && plan.end == WaitsFor(c.channel, id,
                       if c.timeout.None? then None else Some(env.now + c.timeout.value)))
  {
    hide ApplyAll, Fed, SeenBy, Exec, PassiveUpTo, CacheOf, IdOf, HasId, Perform;
    var c, id, cache := wf(seen), IdOf(wf, seen), CacheOf(r.history);
    var turn := TurnOf(wf, seen, cache, env);
    OneTurn(wf, r, seen, env);
    TurnSeen(wf, seen, cache, env);
    var r0 := UpTo(r, Exec(wf, [], cache, env, |seen| + 1).actions, turn.actions);
    SubscribedRow(r0, c);
    if env.pending(id).Some? {
      var prepared := ApplyAll(r0, Preparation(c));
      ApplyConcat(r0, Preparation(c), Perform(c, id, env));
      PerformRows(prepared, c, id, env, 0);
      ReceivedColumns(prepared, c, id, env);
    } else {
      assert seen + [] == seen;
    }
  }

  lemma SubscribedRow(r: Row, c: Call)
    requires r.tx.None? && c.WaitEvent?
    ensures var r' := ApplyAll(r, Preparation(c));
            r' == r.(subscriptions := r'.subscriptions) && c.channel in r'.subscriptions
  {
    ApplyPair(r, Subscribe(c.channel), Subscribe(c.channel));
  }

  lemma ReceivedColumns(r: Row, c: Call, id: string, env: Env)
    requires c.WaitEvent? && env.pending(id).Some? && r.tx.None? && !HasId(r.history, id)
    ensures Performed(r, c, id, env) ==
            r.(history := r.history + [Event(id, ActivityCompleted, Json(env.pending(id).value))])
  {
  }

  /** A sleep suspends under its id, until the clock of the execution plus its duration. */
  lemma SleepIsPerformed(wf: Workflow, r: Row, seen: seq<Outcome>, env: Env)
    requires r.tx.None? && Fed(wf, CacheOf(r.history), seen) && wf(seen).Sleep?
    requires IdOf(wf, seen) !in CacheOf(r.history)
    ensures var plan := Exec(wf, [], CacheOf(r.history), env, |seen| + 1);
            var r' := ApplyAll(r, plan.actions);
            && r' == r.(subscriptions := r'.subscriptions) && SeenBy(plan.actions) == seen
            && plan.end == SleepsUntil(IdOf(wf, seen), env.now + wf(seen).duration)
  {
    hide ApplyAll, Fed, SeenBy, Exec, PassiveUpTo, CacheOf, IdOf;
    var cache := CacheOf(r.history);
    OneTurn(wf, r, seen, env);
    TurnSeen(wf, seen, cache, env);
    var r0 := UpTo(r, Exec(wf, [], cache, env, |seen| + 1).actions, TurnOf(wf, seen, cache, env).actions);
    assert seen + [] == seen;
    ApplyNone(r0);
  }

  /** Where workflow code ends, an execution does: with the value, the error or the new input. */
  lemma EndIsReached(wf: Workflow, r: Row, seen: seq<Outcome>, env: Env, fuel: nat)
    requires Fed(wf, CacheOf(r.history), seen) && Ends(wf(seen)) && |seen| < fuel
    ensures var plan := Exec(wf, [], CacheOf(r.history), env, fuel);
            && SeenBy(plan.actions) == seen && Passive(plan.actions)
            && (forall v :: wf(seen) == Return(v) ==> plan.end == Returned(v))
            && (forall m :: wf(seen) == Fail(m) ==> plan.end == Raised(m))
            && (forall input :: wf(seen) == Recur(input) ==> plan.end == Recurs(input))
  {
    hide Fed, SeenBy, Exec, PassiveUpTo, CacheOf, Passive;
    var cache := CacheOf(r.history);
    assert seen[..0] == [] && seen[0..] == seen;
    ExecAlong(wf, cache, seen, 0, env, fuel);
    ExecStep(wf, seen, cache, env, fuel - |seen|);
    SeenByNothing([]);
    NothingPassive();
    PassiveBoth(Exec(wf, [], cache, env, fuel).actions, []);
    assert seen + [] == seen;
  }

  lemma NothingPassive()
    ensures Passive([])
  {
  }
}
