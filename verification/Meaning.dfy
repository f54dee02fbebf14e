/** What the invariant says about whole runs: meaning, idempotence, transactions, receives. */
module Meaning {
  import opened Prelude
  import opened ActivityIds
  import opened Clock
  import opened Locks
  import opened Tables
  import opened Workflows
  import opened Replay
  import opened Saga
  import opened Machine
  import opened Integrity
  import opened Accounts
  import opened Reachable
  import opened Safety
  import opened CallOrder

  // ---- Replay preserves meaning ----

  /** From that many calls on, the uninterrupted run has returned `value`. */
  ghost predicate ReturnsFrom(wf: Workflow, oracle: string -> Outcome, calls: nat, value: string) {
    forall more: nat :: calls <= more ==> wf(Uninterrupted(wf, oracle, more)) == Return(value)
  }

  /**
   * Replay preserves meaning.  Whatever happened to an instance - any steps, each cut anywhere,
   * handlers of things found long ago, deaths at any statement - once it is completed, the
   * uninterrupted run that is fed with the recorded outcomes returns, and returns its value; unless
   * an execution returned although it had rolled a transaction back, with its record.
   */
  lemma ReplayPreservesMeaning(wf: Workflow, moves: seq<Move>, oracle: string -> Outcome)
    requires WellNamed(wf) && StraightRun(wf, NEW, moves)
    requires Reached(wf, NEW, moves).row.status.Completed?
    requires Consults(oracle, CacheOf(Reached(wf, NEW, moves).row.history))
    ensures exists calls :: ReturnsFrom(wf, oracle, calls, Reached(wf, NEW, moves).row.output)
  {
    hide WellNamed, StraightRun, Reached, CacheOf, Fed, Consults;
    var r := Reached(wf, NEW, moves).row;
    NewIsIntact(wf);
    RunClaims(wf, NEW, moves);
    var seen :| Fed(wf, CacheOf(r.history), seen) && wf(seen) == Return(r.output);
    FedIsUninterrupted(wf, oracle, CacheOf(r.history), seen, |seen|);
    assert seen[..|seen|] == seen;
    forall more: nat | |seen| <= more ensures wf(Uninterrupted(wf, oracle, more)) == Return(r.output) {
      UninterruptedStays(wf, oracle, |seen|, more);
    }
    assert ReturnsFrom(wf, oracle, |seen|, r.output);
  }

  /** Workflow code that passes on the errors of transactional activities is safe in every run. */
  lemma PropagatingReplayPreservesMeaning(wf: Workflow, moves: seq<Move>, oracle: string -> Outcome)
    requires WellNamed(wf) && Propagates(wf)
    requires Reached(wf, NEW, moves).row.status.Completed?
    requires Consults(oracle, CacheOf(Reached(wf, NEW, moves).row.history))
    ensures exists calls :: ReturnsFrom(wf, oracle, calls, Reached(wf, NEW, moves).row.output)
  {
    hide WellNamed, Propagates, StraightRun, Reached, CacheOf, Consults, ReturnsFrom;
    PropagatingIsStraight(wf, NEW, moves);
    ReplayPreservesMeaning(wf, moves, oracle);
  }

  lemma NewIsIntact(wf: Workflow)
    ensures Intact(NEW.row) && Claim(wf, NEW.row)
  {
  }

  // ---- The order of the records ----

  /**
   * In ordered runs the records stand in the order of the calls: they are, one by one, what an
   * uninterrupted run sees when it is fed with them.
   */
  lemma RecordsFollowCalls(wf: Workflow, moves: seq<Move>, oracle: string -> Outcome, calls: nat)
    requires WellNamed(wf) && Propagates(wf) && OrderedRun(wf, NEW, moves)
    requires Agrees(oracle, Outcomes(Reached(wf, NEW, moves).row.history))
    requires calls <= |Outcomes(Reached(wf, NEW, moves).row.history)|
    ensures Uninterrupted(wf, oracle, calls) == Seen(Reached(wf, NEW, moves).row)[..calls]
  {
    hide WellNamed, Propagates, OrderedRun, Reached;
    NewIsHealthy(wf);
    RunKeeps(wf, NEW, moves);
    HealthyOpen(wf, Reached(wf, NEW, moves));
    RunIsUninterrupted(wf, oracle, Outcomes(Reached(wf, NEW, moves).row.history), calls);
  }

  // ---- One outcome per call ----

  /**
   * Once an id has a record, that record stays the only one under the id, whatever deliveries,
   * timeouts (of waits found at any time) and executions follow in the iteration, and every later
   * replay answers the call from it.
   */
  lemma OneOutcome(wf: Workflow, w: World, moves: seq<Move>, i: nat)
    requires w.row.tx.None? && UniqueIds(w.row.history)
    requires Reached(wf, w, moves).iteration == w.iteration && i < |w.row.history|
    ensures var e, history := w.row.history[i], Reached(wf, w, moves).row.history;
            && i < |history|
            && (forall j :: 0 <= j < |history| ==> (history[j].activityId == e.activityId <==> j == i))
            && history[i] == e
            && (Cacheable(e) ==>
                  e.activityId in CacheOf(history) && CacheOf(history)[e.activityId] == OutcomeOf(e))
  {
    hide Reached, CacheOf;
    RunUnique(wf, w, moves);
    RunGrows(wf, w, moves);
    var w' := Reached(wf, w, moves);
    CacheIsHistory(w'.row.history);
    assert w'.row.history[i] == w.row.history[i];
  }

  // ---- Running a finished instance again ----

  lemma {:induction false} PassiveSubscribes(r: Row, actions: seq<Action>)
    requires Passive(actions)
    ensures var subs := ApplyAll(r, actions).subscriptions;
            forall ch :: ch in r.subscriptions ==> ch in subs && subs[ch] == r.subscriptions[ch]
  {
    if actions != [] {
      PassiveSubscribes(r, actions[..|actions| - 1]);
    }
  }

  /**
   * Executing a finished workflow once more, over any records that make it return, in whatever
   * order they came, calls nothing and records nothing; it subscribes again and ends with the
   * same value.
   */
  lemma RerunIsIdempotent(wf: Workflow, w: World, step: Step, seen: seq<Outcome>, v: string)
    requires w.row.tx.None? && Fed(wf, CacheOf(w.row.history), seen) && wf(seen) == Return(v)
    requires step.Resuming? && Acts(w, step) && |seen| < step.fuel
    ensures var all := Actions(wf, w, step);
            var r := Next(wf, w, step, |all|).row;
            && (forall i :: 0 <= i < |all| ==> !all[i].Call? && !all[i].Append?)
            && r == w.row.(status := Completed, output := v, lock := Unlocked, subscriptions := r.subscriptions)
            && (forall ch :: ch in w.row.subscriptions ==>
                  ch in r.subscriptions && r.subscriptions[ch] == w.row.subscriptions[ch])
  {
    hide ApplyAll, After, Exec, Left, Fed, CacheOf, SeenBy, PassiveUpTo;
    var started := Started(w.row, step.worker, step.expires);
    var cache := CacheOf(started.history);
    var plan := Exec(wf, [], cache, step.env, step.fuel);
    assert seen[..0] == [];
    ExecAlong(wf, cache, seen, 0, step.env, step.fuel);
    ExecStep(wf, seen, cache, step.env, step.fuel - |seen|);
    PassiveBoth(plan.actions, []);
    PassiveApplied(started, plan.actions);
    PassiveSubscribes(started, plan.actions);
    PlanClearsNothing(wf, started, step.env, step.fuel);
    assert Actions(wf, w, step) == Completing(plan.actions, v, step.worker, step.expires);
    CompletedRow(w, plan.actions, v, step.worker, step.expires);
  }

  /** From that much fuel on, every resumption calls and records nothing and keeps the value. */
  ghost predicate RerunsQuietly(wf: Workflow, w: World, calls: nat) {
    forall step: Step :: step.Resuming? && Acts(w, step) && calls < step.fuel ==> RerunsSo(wf, w, step)
  }

  ghost predicate RerunsSo(wf: Workflow, w: World, step: Step) {
    var all := Actions(wf, w, step);
    var r := Next(wf, w, step, |all|).row;
    && (forall i :: 0 <= i < |all| ==> !all[i].Call? && !all[i].Append?)
    && r.status.Completed? && r.output == w.row.output && r.history == w.row.history
  }

  /** Whatever happened to an instance, once it is completed, running it again changes nothing. */
  lemma CompletedStaysCompleted(wf: Workflow, moves: seq<Move>)
    requires WellNamed(wf) && StraightRun(wf, NEW, moves) && Reached(wf, NEW, moves).row.status.Completed?
    ensures exists calls :: RerunsQuietly(wf, Reached(wf, NEW, moves), calls)
  {
    hide WellNamed, StraightRun, Reached, CacheOf, Fed, Actions, Next, UniqueIds;
    var w := Reached(wf, NEW, moves);
    NewIsIntact(wf);
    RunClaims(wf, NEW, moves);
    RunUnique(wf, NEW, moves);
    var seen :| Fed(wf, CacheOf(w.row.history), seen) && wf(seen) == Return(w.row.output);
    forall step: Step | step.Resuming? && Acts(w, step) && |seen| < step.fuel ensures RerunsSo(wf, w, step) {
      RerunIsIdempotent(wf, w, step, seen, w.row.output);
    }
    assert RerunsQuietly(wf, w, |seen|);
  }

  /** The statements of an execution that returns. */
  function Completing(actions: seq<Action>, v: string, worker: string, expires: nat): seq<Action> {
    [Acquire(worker, expires), SetStatus(Running)] + (actions + [SetOutput(v), SetStatus(Completed), ReleaseBy(worker)])
  }

  lemma CompletedRow(w: World, actions: seq<Action>, v: string, worker: string, expires: nat)
    requires w.row.tx.None? && !Clears(actions)
    requires var done := ApplyAll(Started(w.row, worker, expires), actions);
             done.tx.None? && done.lock == Locked(worker, expires)
    ensures var all, done := Completing(actions, v, worker, expires), ApplyAll(Started(w.row, worker, expires), actions);
            Left(w, all, |all|).row == done.(status := Completed, output := v, lock := Unlocked)
  {
    hide ApplyAll, After, Left;
    var started := Started(w.row, worker, expires);
    var first, last := [Acquire(worker, expires), SetStatus(Running)],
      [SetOutput(v), SetStatus(Completed), ReleaseBy(worker)];
    var done := ApplyAll(started, actions);
    WalkTwo(w.row, first[0], first[1], 2);
    LeftConcat(w, first, actions + last, |first + (actions + last)|);
    LeftConcat(w.(row := started), actions, last, |actions + last|);
    LeftStays(w.(row := done), last, 3);
    WalkThree(done, last[0], last[1], last[2], 3);
  }

  // ---- The account, call by call ----

  /** The ids of successful transactional activities are different ids of the records. */
  lemma TxDoneBefore(wf: Workflow, records: seq<Event>, n: nat, j: nat)
    requires j < n <= |records|
    ensures TxDone(wf, records[..n], j) <==> TxDone(wf, records, j)
  {
    assert Outs(records[..n])[..j] == Outs(records)[..j];
  }

  /** Under the id a transactional activity is recorded as completed. */
  ghost predicate DoneUnder(wf: Workflow, records: seq<Event>, id: string) {
    exists j :: 0 <= j < |records| && records[j].activityId == id && TxDone(wf, records, j)
  }

  lemma DoneUnderLast(wf: Workflow, records: seq<Event>, id: string)
    requires records != [] && UniqueIds(records)
    ensures var last := |records| - 1;
            && (DoneUnder(wf, records, id) <==>
                  DoneUnder(wf, records[..last], id) || (records[last].activityId == id && TxDone(wf, records, last)))
            && (records[last].activityId == id ==> !DoneUnder(wf, records[..last], id))
  {
    hide TxDone;
    var last := |records| - 1;
    forall j | 0 <= j < last ensures TxDone(wf, records[..last], j) == TxDone(wf, records, j) {
      TxDoneBefore(wf, records, last, j);
    }
    if j :| 0 <= j < last && records[..last][j].activityId == id && TxDone(wf, records[..last], j) {
      assert records[j].activityId == id && TxDone(wf, records, j);
    }
    if j :| 0 <= j < last && records[j].activityId == id && TxDone(wf, records, j) {
      assert records[..last][j].activityId == id && TxDone(wf, records[..last], j);
    }
  }

  lemma {:induction false} TxRowsOnce(wf: Workflow, records: seq<Event>, id: string)
    requires UniqueIds(records)
    ensures id in TxRows(wf, records) <==> DoneUnder(wf, records, id)
    ensures multiset(TxRows(wf, records))[id] <= 1
  {
    hide TxDone, UniqueIds, DoneUnder;
    if records == [] {
      NothingDone(wf, id);
    } else {
      InitUnique(records);
      DoneUnderLast(wf, records, id);
      TxRowsOnce(wf, records[..|records| - 1], id);
    }
  }

  lemma NothingDone(wf: Workflow, id: string)
    ensures !DoneUnder(wf, [], id)
  {
  }

  /** Filtering keeps ids unique. */
  lemma {:induction false} OutcomesUnique(history: seq<Event>)
    requires UniqueIds(history)
    ensures UniqueIds(Outcomes(history))
  {
    if history != [] {
      var init, e := history[..|history| - 1], history[|history| - 1];
      OutcomesUnique(init);
      FilterMembers(init, IsOutcome);
      assert history == init + [e];
      FilterSnoc(init, e, IsOutcome);
      forall x | x in Outcomes(init) ensures x.activityId != e.activityId {
        var k :| 0 <= k < |init| && init[k] == x;
        assert history[k] == x;
      }
    }
  }

  /** Record j is the success of a transactional activity with a compensation. */
  predicate NeedsEntry(wf: Workflow, records: seq<Event>, j: nat)
    requires j < |records|
  {
    TxDone(wf, records, j) && wf(Outs(records)[..j]).compensated
  }

  /** Record j is the success of an activity with a compensation, and `entry` is its entry. */
  predicate Owns(wf: Workflow, records: seq<Event>, j: nat, entry: Compensation)
    requires j < |records|
  {
    var c := wf(Outs(records)[..j]);
    && c.Activity? && c.compensated && records[j].kind.ActivityCompleted?
    && entry.activityId == records[j].activityId
  }

  ghost predicate HasOwner(wf: Workflow, records: seq<Event>, entry: Compensation) {
    exists j :: 0 <= j < |records| && Owns(wf, records, j, entry)
  }

  ghost predicate AllEntered(wf: Workflow, records: seq<Event>, entries: seq<Compensation>) {
    forall j :: 0 <= j < |records| && NeedsEntry(wf, records, j) ==> HasEntry(entries, records[j].activityId)
  }

  ghost predicate AllOwned(wf: Workflow, records: seq<Event>, entries: seq<Compensation>) {
    forall k :: 0 <= k < |entries| ==> HasOwner(wf, records, entries[k])
  }

  lemma EntriesStay(wf: Workflow, records: seq<Event>, rest: seq<Compensation>, entries: seq<Compensation>)
    requires records != [] && rest <= entries
    requires AllEntered(wf, records[..|records| - 1], rest) && AllOwned(wf, records[..|records| - 1], rest)
    ensures forall j :: 0 <= j < |records| - 1 && NeedsEntry(wf, records, j) ==> HasEntry(entries, records[j].activityId)
    ensures forall k :: 0 <= k < |rest| ==> HasOwner(wf, records, entries[k])
  {
    var init := records[..|records| - 1];
    forall j | 0 <= j < |init| ensures Outs(init)[..j] == Outs(records)[..j] {}
    forall j | 0 <= j < |init| && NeedsEntry(wf, records, j) ensures HasEntry(entries, records[j].activityId) {
      assert NeedsEntry(wf, init, j) && HasEntry(rest, init[j].activityId);
      var k :| 0 <= k < |rest| && rest[k].activityId == init[j].activityId;
      assert entries[k] == rest[k];
    }
    forall k | 0 <= k < |rest| ensures HasOwner(wf, records, entries[k]) {
      assert entries[k] == rest[k] && HasOwner(wf, init, rest[k]);
      var j :| 0 <= j < |init| && Owns(wf, init, j, rest[k]);
      assert Owns(wf, records, j, entries[k]);
    }
  }

  /**
   * A transactional activity with a compensation that is recorded as completed has an entry,
   * and an entry stands for a compensated activity that is recorded as completed.
   */
  lemma {:induction false} RegisteredMeans(wf: Workflow, records: seq<Event>, entries: seq<Compensation>)
    requires Registered(wf, records, entries)
    ensures AllEntered(wf, records, entries) && AllOwned(wf, records, entries)
  {
    hide AllEntered, AllOwned;
    if records == [] {
      NothingRegistered(wf);
    } else {
      var last := |records| - 1;
      var init, c := records[..last], wf(Outs(records)[..last]);
      assert Outs(records)[..last] == Outs(init);
      if c.Activity? && c.compensated && records[last].kind.ActivityCompleted?
         && entries != [] && entries[|entries| - 1].activityId == records[last].activityId
         && Registered(wf, init, entries[..|entries| - 1]) {
        RegisteredMeans(wf, init, entries[..|entries| - 1]);
        OneMoreEntered(wf, records, entries[..|entries| - 1], entries);
      } else {
        RegisteredMeans(wf, init, entries);
        NoneMoreEntered(wf, records, entries);
      }
    }
  }

  lemma NothingRegistered(wf: Workflow)
    ensures AllEntered(wf, [], []) && AllOwned(wf, [], [])
  {
  }

  lemma OneMoreEntered(wf: Workflow, records: seq<Event>, rest: seq<Compensation>, entries: seq<Compensation>)
    requires records != [] && entries != [] && rest == entries[..|entries| - 1]
    requires AllEntered(wf, records[..|records| - 1], rest) && AllOwned(wf, records[..|records| - 1], rest)
    requires Owns(wf, records, |records| - 1, entries[|entries| - 1])
    ensures AllEntered(wf, records, entries) && AllOwned(wf, records, entries)
  {
    hide NeedsEntry, Owns;
    EntriesStay(wf, records, rest, entries);
    OwnsById(wf, records, |records| - 1, entries[|entries| - 1]);
  }

  lemma OwnsById(wf: Workflow, records: seq<Event>, j: nat, entry: Compensation)
    requires j < |records| && Owns(wf, records, j, entry)
    ensures entry.activityId == records[j].activityId
  {
  }

  lemma NoneMoreEntered(wf: Workflow, records: seq<Event>, entries: seq<Compensation>)
    requires records != [] && !NeedsEntry(wf, records, |records| - 1)
    requires AllEntered(wf, records[..|records| - 1], entries) && AllOwned(wf, records[..|records| - 1], entries)
    ensures AllEntered(wf, records, entries) && AllOwned(wf, records, entries)
  {
    hide NeedsEntry, Owns;
    EntriesStay(wf, records, entries, entries);
  }

  /** The entries of different records belong to different ids. */
  lemma RegisteredInit(wf: Workflow, records: seq<Event>, entries: seq<Compensation>)
    requires records != [] && Registered(wf, records, entries)
    ensures var last := |records| - 1;
            || Registered(wf, records[..last], entries)
            || (&& entries != [] && entries[|entries| - 1].activityId == records[last].activityId
                && Registered(wf, records[..last], entries[..|entries| - 1]))
  {
  }

  lemma NoneRegistered(wf: Workflow, entries: seq<Compensation>)
    requires Registered(wf, [], entries)
    ensures entries == []
  {
  }

  lemma InitUnique(records: seq<Event>)
    requires UniqueIds(records) && records != []
    ensures UniqueIds(records[..|records| - 1])
  {
  }

  lemma LastHasId(records: seq<Event>)
    requires records != []
    ensures HasId(records, records[|records| - 1].activityId)
  {
  }

  lemma EarlierIds(records: seq<Event>, id: string)
    requires UniqueIds(records) && records != [] && HasId(records[..|records| - 1], id)
    ensures HasId(records, id) && id != records[|records| - 1].activityId
  {
    HasIdStays(records[..|records| - 1], records, id);
  }

  lemma {:induction false} RegisteredDistinct(wf: Workflow, records: seq<Event>, entries: seq<Compensation>)
    requires Registered(wf, records, entries) && UniqueIds(records)
    ensures DistinctOwners(entries)
    ensures forall k :: 0 <= k < |entries| ==> HasId(records, entries[k].activityId)
  {
    hide Registered, HasId, UniqueIds;
    if records == [] {
      NoneRegistered(wf, entries);
    } else {
      RegisteredInit(wf, records, entries);
      InitUnique(records);
      var last := |records| - 1;
      var owned := !Registered(wf, records[..last], entries);
      var rest := if owned then entries[..|entries| - 1] else entries;
      RegisteredDistinct(wf, records[..last], rest);
      forall k | 0 <= k < |rest| ensures HasId(records, rest[k].activityId) && rest[k].activityId != records[last].activityId {
        EarlierIds(records, rest[k].activityId);
      }
      LastHasId(records);
    }
  }

  // ---- Transactional activities ----

  /** What the transactions of this iteration have written, beyond what was there before it. */
  function Written(w: World): seq<string>
    requires |w.base.userRows| <= |w.row.userRows|
  {
    w.row.userRows[|w.base.userRows|..]
  }

  /** The compensations registered in this iteration. */
  function Entered(w: World): seq<Compensation>
    requires |w.base.compensations| <= |w.row.compensations|
  {
    w.row.compensations[|w.base.compensations|..]
  }

  function Owners(entries: seq<Compensation>): (ids: seq<string>)
    ensures |ids| == |entries| && forall k :: 0 <= k < |entries| ==> ids[k] == entries[k].activityId
  {
    seq(|entries|, k requires 0 <= k < |entries| => entries[k].activityId)
  }

  /**
   * All or nothing, and at most once.  In every state a possible run reaches, whatever workflow
   * code makes of errors: under one id there is at most one write and at most one entry, and both
   * only if a completion is recorded.  And where the activities of a name are transactional, a
   * recorded completion has exactly one write; where they have a compensation, exactly one entry.
   */
  lemma TransactionsAllOrNothing(wf: Workflow, moves: seq<Move>, name: string, n: nat)
    requires WellNamed(wf) && PossibleRun(wf, NEW, moves)
    ensures var w, id := Reached(wf, NEW, moves), Render(name, n);
            && w.base.userRows <= w.row.userRows && w.base.compensations <= w.row.compensations
            && var writes, entries := multiset(Written(w))[id], multiset(Owners(Entered(w)))[id];
               && writes <= 1 && entries <= 1
               && (writes == 1 || entries == 1 ==> CompletedIn(w.row.history, id))
               && (Transactional(wf, name) && !EngineName(name) ==>
                     && (writes == 1 <==> CompletedIn(w.row.history, id))
                     && (Compensated(wf, name) ==> (entries == 1 <==> CompletedIn(w.row.history, id))))
  {
    hide WellNamed, PossibleRun, Reached, FormedWorld, Render, Transactional, Compensated, CompletedIn;
    var w, id := Reached(wf, NEW, moves), Render(name, n);
    NewIsSound(wf);
    RunSound(wf, NEW, moves);
    SoundBooks(wf, w);
    CountOfDistinct(Written(w), id);
    CountOfDistinct(Owners(Entered(w)), id);
    OwnersHave(Entered(w), id);
  }

  /**
   * The same call by call, where records stand in the order of the calls, whatever the names: the
   * writes of a transactional activity exist exactly if its call is recorded as completed, then
   * once; each such call with a compensation has an entry, no id has two, and no entry is without
   * a recorded completion.
   */
  lemma TransactionsByCall(wf: Workflow, moves: seq<Move>, id: string)
    requires WellNamed(wf) && Propagates(wf) && OrderedRun(wf, NEW, moves)
    ensures var w := Reached(wf, NEW, moves);
            var records := Outcomes(w.row.history);
            && w.base.userRows <= w.row.userRows && w.base.compensations <= w.row.compensations
            && multiset(Written(w))[id] == (if Succeeded(wf, w.row, id) then 1 else 0)
            && AllEntered(wf, records, Entered(w)) && AllOwned(wf, records, Entered(w)) && DistinctOwners(Entered(w))
  {
    hide WellNamed, Propagates, OrderedRun, Reached, Outcomes, Outs, TxDone, Registered, TimersFit, WaitsFit, StatusFits,
         AllEntered, AllOwned, OnPath, DoneUnder;
    var w := Reached(wf, NEW, moves);
    NewIsHealthy(wf);
    RunKeeps(wf, NEW, moves);
    HealthyOpen(wf, w);
    var records := Outcomes(w.row.history);
    AccountedRecords(wf, w);
    UniqueOutcomes(wf, w.row);
    TxRowsOnce(wf, records, id);
    RegisteredMeans(wf, records, Entered(w));
    RegisteredDistinct(wf, records, Entered(w));
    assert multiset(Written(w))[id] > 0 <==> id in Written(w);
  }

  /** The id is that of a recorded success of a transactional activity. */
  ghost predicate Succeeded(wf: Workflow, r: Row, id: string) {
    DoneUnder(wf, Outcomes(r.history), id)
  }

  lemma UniqueOutcomes(wf: Workflow, r: Row)
    requires OnPath(wf, r)
    ensures UniqueIds(Outcomes(r.history))
  {
    OutcomesUnique(r.history);
  }

  lemma AccountedRecords(wf: Workflow, w: World)
    requires Healthy(wf, w)
    ensures w.base.userRows <= w.row.userRows && w.base.compensations <= w.row.compensations
    ensures Written(w) == TxRows(wf, Outcomes(w.row.history))
    ensures Registered(wf, Outcomes(w.row.history), Entered(w))
  {
    hide TimersFit, WaitsFit, StatusFits, Outcomes, Registered, TxRows;
  }

  lemma SoundBooks(wf: Workflow, w: World)
    requires Sound(wf, w.base, w.row)
    ensures w.base.userRows <= w.row.userRows && w.base.compensations <= w.row.compensations
    ensures Books(wf, w.row.history, Written(w), Entered(w))
    ensures Distinct(Written(w)) && Distinct(Owners(Entered(w)))
  {
    hide CompletedIn, AlwaysTransactional, AlwaysCompensated, HasEntry;
  }

  lemma {:induction false} CountOfDistinct(ids: seq<string>, id: string)
    requires Distinct(ids)
    ensures multiset(ids)[id] == if id in ids then 1 else 0
  {
    if ids != [] {
      var init, last := ids[..|ids| - 1], ids[|ids| - 1];
      CountOfDistinct(init, id);
      assert ids == init + [last];
      assert forall k :: 0 <= k < |init| ==> init[k] == ids[k];
    }
  }

  lemma OwnersHave(entries: seq<Compensation>, id: string)
    ensures id in Owners(entries) <==> HasEntry(entries, id)
  {
    if id in Owners(entries) {
      var k :| 0 <= k < |entries| && Owners(entries)[k] == id;
      assert entries[k].activityId == id;
    }
    if k :| 0 <= k < |entries| && entries[k].activityId == id {
      assert Owners(entries)[k] == id;
    }
  }
}
