/**
 * What possible runs keep besides: the forms of ids, the account of transactions and entries, and
 * that user code is called only while it has no record.  No order of records, no assumption on
 * what workflow code makes of an error.
 */
module Accounts {
  import opened Prelude
  import opened ActivityIds
  import opened Clock
  import opened Locks
  import opened Tables
  import opened Workflows
  import opened Replay
  import opened Saga
  import opened Machine
  import opened Integrity

  // ---- The books of one iteration ----

  /** The names under which the engine's own calls take their ids. */
  predicate EngineName(name: string) {
    name == "sleep" || "receive_" <= name
  }

  /** The id is one of activities that are transactional wherever the workflow calls them. */
  ghost predicate AlwaysTransactional(wf: Workflow, id: string) {
    exists name, n :: id == Render(name, n) && !EngineName(name) && Transactional(wf, name)
  }

  ghost predicate Transactional(wf: Workflow, name: string) {
    forall seen :: wf(seen).Activity? && wf(seen).name == name ==> wf(seen).transactional
  }

  ghost predicate AlwaysCompensated(wf: Workflow, id: string) {
    exists name, n :: id == Render(name, n) && Compensated(wf, name)
  }

  ghost predicate Compensated(wf: Workflow, name: string) {
    forall seen :: wf(seen).Activity? && wf(seen).name == name ==> wf(seen).compensated
  }

  /** The history has the completion of an activity under the id. */
  ghost predicate CompletedIn(history: seq<Event>, id: string) {
    exists i :: 0 <= i < |history| && history[i].activityId == id && history[i].kind.ActivityCompleted?
  }

  ghost predicate HasEntry(entries: seq<Compensation>, id: string) {
    exists k :: 0 <= k < |entries| && entries[k].activityId == id
  }

  predicate Distinct(ids: seq<string>) {
    forall i, j :: 0 <= i < j < |ids| ==> ids[i] != ids[j]
  }

  predicate DistinctOwners(entries: seq<Compensation>) {
    forall i, j :: 0 <= i < j < |entries| ==> entries[i].activityId != entries[j].activityId
  }

  /**
   * Writes and entries belong to completed activities, each at most once; and a completed
   * transactional activity has its write, and its entry if it has a compensation.
   */
  ghost predicate Books(wf: Workflow, history: seq<Event>, writes: seq<string>, entries: seq<Compensation>) {
    && Distinct(writes) && DistinctOwners(entries)
    && (forall id :: id in writes ==> CompletedIn(history, id))
    && (forall k :: 0 <= k < |entries| ==> CompletedIn(history, entries[k].activityId))
    && (forall id :: CompletedIn(history, id) && AlwaysTransactional(wf, id) ==>
          id in writes && (AlwaysCompensated(wf, id) ==> HasEntry(entries, id)))
  }

  /** `base` is the instance when the current iteration began. */
  ghost predicate Booked(wf: Workflow, base: Row, r: Row) {
    && base.userRows <= r.userRows && base.compensations <= r.compensations
    && Books(wf, r.history, r.userRows[|base.userRows|..], r.compensations[|base.compensations|..])
  }

  lemma CompletedSnoc(history: seq<Event>, e: Event, id: string)
    ensures CompletedIn(history + [e], id) <==>
            CompletedIn(history, id) || (e.activityId == id && e.kind.ActivityCompleted?)
  {
    var all := history + [e];
    if i :| 0 <= i < |history| && history[i].activityId == id && history[i].kind.ActivityCompleted? {
      assert all[i] == history[i];
    }
    if e.activityId == id && e.kind.ActivityCompleted? {
      assert all[|history|] == e;
    }
  }

  /** A record that owes nothing: no completion, or of an activity that is not always transactional. */
  lemma BooksAside(wf: Workflow, history: seq<Event>, e: Event, writes: seq<string>, entries: seq<Compensation>)
    requires Books(wf, history, writes, entries)
    requires e.kind.ActivityCompleted? ==> !AlwaysTransactional(wf, e.activityId)
    ensures Books(wf, history + [e], writes, entries)
  {
    hide CompletedIn, AlwaysTransactional, AlwaysCompensated, HasEntry, Distinct, DistinctOwners;
    forall id ensures CompletedIn(history + [e], id) <==>
                      CompletedIn(history, id) || (e.activityId == id && e.kind.ActivityCompleted?) {
      CompletedSnoc(history, e, id);
    }
  }

  lemma FreshIsUncompleted(history: seq<Event>, id: string)
    requires !HasId(history, id)
    ensures !CompletedIn(history, id)
  {
  }

  lemma DistinctSnoc(ids: seq<string>, id: string)
    requires Distinct(ids) && id !in ids
    ensures Distinct(ids + [id])
  {
  }

  lemma OwnersSnoc(entries: seq<Compensation>, entry: Compensation)
    requires DistinctOwners(entries) && !HasEntry(entries, entry.activityId)
    ensures DistinctOwners(entries + [entry])
  {
  }

  lemma EntriesSnoc(entries: seq<Compensation>, entry: Compensation, id: string)
    ensures HasEntry(entries + [entry], id) <==> HasEntry(entries, id) || entry.activityId == id
  {
    var all := entries + [entry];
    if k :| 0 <= k < |entries| && entries[k].activityId == id {
      assert all[k] == entries[k];
    }
    if entry.activityId == id {
      assert all[|entries|] == entry;
    }
  }

  /** A completion with its entry. */
  lemma BooksEntry(
    wf: Workflow, history: seq<Event>, e: Event, writes: seq<string>, entries: seq<Compensation>, entry: Compensation)
    requires Books(wf, history, writes, entries) && !HasId(history, e.activityId)
    requires e.kind.ActivityCompleted? && !AlwaysTransactional(wf, e.activityId) && entry.activityId == e.activityId
    ensures Books(wf, history + [e], writes, entries + [entry])
  {
    hide CompletedIn, AlwaysTransactional, AlwaysCompensated, HasEntry, Distinct, DistinctOwners;
    FreshIsUncompleted(history, e.activityId);
    forall id ensures CompletedIn(history + [e], id) <==> CompletedIn(history, id) || e.activityId == id {
      CompletedSnoc(history, e, id);
    }
    forall id ensures HasEntry(entries + [entry], id) <==> HasEntry(entries, id) || entry.activityId == id {
      EntriesSnoc(entries, entry, id);
    }
    assert !HasEntry(entries, e.activityId) by { NoEntry(history, entries, e.activityId); }
    OwnersSnoc(entries, entry);
  }

  lemma NoEntry(history: seq<Event>, entries: seq<Compensation>, id: string)
    requires (forall k :: 0 <= k < |entries| ==> CompletedIn(history, entries[k].activityId)) && !CompletedIn(history, id)
    ensures !HasEntry(entries, id)
  {
  }

  /** A committed transaction: the record, the write, and the entry if there is a compensation. */
  lemma BooksCommit(
    wf: Workflow, history: seq<Event>, e: Event, writes: seq<string>, entries: seq<Compensation>, more: seq<Compensation>)
    requires Books(wf, history, writes, entries) && !HasId(history, e.activityId) && e.kind.ActivityCompleted?
    requires |more| <= 1 && (more != [] ==> more[0].activityId == e.activityId)
    requires more == [] ==> !AlwaysCompensated(wf, e.activityId)
    ensures Books(wf, history + [e], writes + [e.activityId], entries + more)
  {
    hide CompletedIn, AlwaysTransactional, AlwaysCompensated, HasEntry, Distinct, DistinctOwners;
    FreshIsUncompleted(history, e.activityId);
    forall id ensures CompletedIn(history + [e], id) <==> CompletedIn(history, id) || e.activityId == id {
      CompletedSnoc(history, e, id);
    }
    NoEntry(history, entries, e.activityId);
    DistinctSnoc(writes, e.activityId);
    if more == [] {
      assert entries + more == entries;
    } else {
      assert more == [more[0]];
      forall id ensures HasEntry(entries + more, id) <==> HasEntry(entries, id) || more[0].activityId == id {
        EntriesSnoc(entries, more[0], id);
      }
      OwnersSnoc(entries, more[0]);
    }
  }

  // ---- Whose ids are always transactional ----

  /** The id of a call tells its name. */
  lemma TransactionalId(wf: Workflow, seen: seq<Outcome>)
    requires !Ends(wf(seen)) && AlwaysTransactional(wf, IdOf(wf, seen))
    ensures !EngineName(NameOf(wf(seen))) && Transactional(wf, NameOf(wf(seen)))
    ensures wf(seen).Activity? && wf(seen).transactional
  {
    hide Render;
    var c := wf(seen);
    var id, count := IdOf(wf, seen), Counter(wf, seen, NameOf(c)) + 1;
    var name, n :| id == Render(name, n) && !EngineName(name) && Transactional(wf, name);
    RenderInjective(name, n, NameOf(c), count);
  }

  lemma CompensatedId(wf: Workflow, seen: seq<Outcome>)
    requires wf(seen).Activity? && AlwaysCompensated(wf, IdOf(wf, seen))
    ensures wf(seen).compensated
  {
    hide Render;
    var id, count := IdOf(wf, seen), Counter(wf, seen, wf(seen).name) + 1;
    var name, n :| id == Render(name, n) && Compensated(wf, name);
    RenderInjective(name, n, wf(seen).name, count);
  }

  // ---- Executions ----

  ghost predicate Sound(wf: Workflow, base: Row, r: Row) {
    r.tx.None? && Intact(r) && Booked(wf, base, r)
  }

  /** A row that differs in what neither history nor books know. */
  lemma SoundTransfers(wf: Workflow, base: Row, r: Row, r': Row)
    requires Sound(wf, base, r) && r'.tx.None? && r'.history == r.history
    requires r'.userRows == r.userRows && r'.compensations == r.compensations
    ensures Sound(wf, base, r')
  {
  }

  lemma IntactSnoc(r: Row, r': Row, e: Event)
    requires Intact(r) && !HasId(r.history, e.activityId) && KeepsClear(e)
    requires r'.tx.None? && r'.history == r.history + [e]
    ensures Intact(r')
  {
  }

  lemma SliceSnoc<T>(base: seq<T>, all: seq<T>, more: seq<T>)
    requires base <= all
    ensures base <= all + more && (all + more)[|base|..] == all[|base|..] + more
  {
  }

  /** What a performed call leaves, and what it would leave without its entry. */
  lemma PerformedSound(wf: Workflow, base: Row, r: Row, seen: seq<Outcome>, env: Env)
    requires Sound(wf, base, r) && !Ends(wf(seen)) && !Suspends(wf(seen), IdOf(wf, seen), env)
    requires !HasId(r.history, IdOf(wf, seen))
    ensures var c, id := wf(seen), IdOf(wf, seen);
            var o := PerformedOutcome(c, id, env);
            && Sound(wf, base, Performed(r, c, id, env))
            && (Plain(c) ==> Sound(wf, base, r.(history := Appended(r.history, ActivityEvent(id, o)))))
  {
    hide IdOf, HasId, KeepsClear, AlwaysTransactional, AlwaysCompensated, Books, Intact;
    var c, id := wf(seen), IdOf(wf, seen);
    var o := PerformedOutcome(c, id, env);
    var e := ActivityEvent(id, o);
    var writes, entries := r.userRows[|base.userRows|..], r.compensations[|base.compensations|..];
    var recorded := r.(history := Appended(r.history, e));
    AppendedFresh(r.history, id, o);
    IntactSnoc(r, recorded, e);
    if AlwaysTransactional(wf, id) {
      TransactionalId(wf, seen);
    }
    if Plain(c) {
      BooksAside(wf, r.history, e, writes, entries);
    }
    if c.Activity? && o.Ok? && c.compensated {
      var entry := Compensation(r.nextCompensation, id, c.name, Millis(env.now));
      PerformedEntry(r, c, id, env);
      SliceSnoc(base.compensations, r.compensations, [entry]);
      SliceSnoc(base.userRows, r.userRows, [id]);
      if c.transactional {
        BooksCommit(wf, r.history, e, writes, entries, [entry]);
      } else {
        BooksEntry(wf, r.history, e, writes, entries, entry);
      }
      assert r.userRows + [] == r.userRows;
      IntactSnoc(r, Performed(r, c, id, env), e);
    } else if c.Activity? && o.Ok? && c.transactional {
      if AlwaysCompensated(wf, id) {
        CompensatedId(wf, seen);
      }
      SliceSnoc(base.userRows, r.userRows, [id]);
      BooksCommit(wf, r.history, e, writes, entries, []);
      assert entries + [] == entries;
      IntactSnoc(r, Performed(r, c, id, env), e);
    }
  }

  lemma AppendedFresh(history: seq<Event>, id: string, o: Outcome)
    requires !HasId(history, id)
    ensures var e := ActivityEvent(id, o);
            && Appended(history, e) == history + [e] && e.activityId == id && KeepsClear(e)
            && (e.kind.ActivityCompleted? <==> o.Ok?)
  {
  }

  /** At the cut, user code is called only under an id without a record. */
  ghost predicate CallsFresh(r: Row, actions: seq<Action>, cut: nat)
    requires cut <= |actions|
  {
    cut < |actions| && actions[cut].Call? ==> !HasId(After(r, actions, cut).history, actions[cut].id)
  }

  lemma PerformSound(wf: Workflow, base: Row, r: Row, seen: seq<Outcome>, env: Env, cut: nat)
    requires Sound(wf, base, r) && !Ends(wf(seen)) && !Suspends(wf(seen), IdOf(wf, seen), env)
    requires !HasId(r.history, IdOf(wf, seen)) && cut <= |Perform(wf(seen), IdOf(wf, seen), env)|
    ensures var c, id := wf(seen), IdOf(wf, seen);
            var all := Perform(c, id, env);
            && Sound(wf, base, After(r, all, cut)) && Sound(wf, base, ApplyAll(r, all)) && CallsFresh(r, all, cut)
  {
    hide IdOf, HasId, Perform, Performed, ApplyAll, Booked, Intact, After, Apply;
    var c, id := wf(seen), IdOf(wf, seen);
    PerformRows(r, c, id, env, cut);
    PerformedSound(wf, base, r, seen, env);
    PerformShape(c, id, env);
    if cut < |Perform(c, id, env)| && Perform(c, id, env)[cut].Call? {
      CallChangesNothing(r, c, id, env, cut);
    }
  }

  /** A preparation or an answer from the cache. */
  lemma QuietSound(wf: Workflow, base: Row, r: Row, actions: seq<Action>, cut: nat)
    requires Sound(wf, base, r) && cut <= |actions|
    requires forall i :: 0 <= i < |actions| ==> actions[i].Subscribe? || actions[i].See?
    ensures Sound(wf, base, After(r, actions, cut)) && Sound(wf, base, ApplyAll(r, actions)) && CallsFresh(r, actions, cut)
    ensures ApplyAll(r, actions).history == r.history
  {
    hide ApplyAll, Booked, Intact, HasId;
    PassiveApplied(r, actions);
    PassiveApplied(r, actions[..cut]);
    SoundTransfers(wf, base, r, ApplyAll(r, actions));
    SoundTransfers(wf, base, r, After(r, actions, cut));
  }

  lemma CallsFreshConcat(r: Row, first: seq<Action>, second: seq<Action>, cut: nat)
    requires cut <= |first + second|
    requires cut < |first| ==> CallsFresh(r, first, cut)
    requires |first| <= cut ==> CallsFresh(ApplyAll(r, first), second, cut - |first|)
    ensures CallsFresh(r, first + second, cut)
  {
    hide ApplyAll, After, HasId;
    CutConcat(r, first, second, cut);
  }

  /** One turn, wherever it is cut. */
  lemma TurnSound(
    wf: Workflow, base: Row, r: Row, seen: seq<Outcome>, cache: map<string, Outcome>, env: Env, cut: nat)
    requires WellNamed(wf) && Sound(wf, base, r) && Covers(cache, r.history) && !Ends(wf(seen))
    requires cut <= |TurnOf(wf, seen, cache, env).actions|
    ensures var turn := TurnOf(wf, seen, cache, env);
            var next := ApplyAll(r, turn.actions);
            && Sound(wf, base, After(r, turn.actions, cut)) && Sound(wf, base, next)
            && CallsFresh(r, turn.actions, cut) && Covers(turn.cache, next.history)
  {
    hide IdOf, HasId, Perform, Performed, ApplyAll, Sound, After, CallsFresh, WellNamed, Covers;
    var c, id := wf(seen), IdOf(wf, seen);
    var turn := TurnOf(wf, seen, cache, env);
    SoundIsClear(wf, base, r);
    if id in cache || Suspends(c, id, env) {
      QuietSound(wf, base, r, turn.actions, cut);
    } else {
      UncachedIsUnrecorded(wf, r, cache, seen);
      var prep, perform := Preparation(c), Perform(c, id, env);
      QuietSound(wf, base, r, prep, if cut <= |prep| then cut else 0);
      var prepared := ApplyAll(r, prep);
      PerformSound(wf, base, prepared, seen, env, if |prep| <= cut then cut - |prep| else 0);
      CutConcat(r, prep, perform, cut);
      ApplyConcat(r, prep, perform);
      CallsFreshConcat(r, prep, perform, cut);
      SoundIsClear(wf, base, prepared);
      PerformRows(prepared, c, id, env, 0);
      PerformedHistory(prepared, c, id, env);
      CoversSnoc(cache, r.history, ActivityEvent(id, PerformedOutcome(c, id, env)), PerformedOutcome(c, id, env), id);
    }
  }

  lemma SoundIsClear(wf: Workflow, base: Row, r: Row)
    requires Sound(wf, base, r)
    ensures AllClear(r.history) && UniqueIds(r.history) && r.tx.None?
  {
  }

  lemma CoversSnoc(cache: map<string, Outcome>, history: seq<Event>, e: Event, o: Outcome, id: string)
    requires Covers(cache, history) && e == ActivityEvent(id, o)
    ensures Covers(cache[id := o], history) && Covers(cache[id := o], history + [e])
  {
  }

  /** An execution, wherever it is cut, over any sound row, whatever its cache has besides. */
  lemma {:induction false} ExecSound(
    wf: Workflow, base: Row, r: Row, seen: seq<Outcome>, cache: map<string, Outcome>, env: Env, fuel: nat, cut: nat)
    requires WellNamed(wf) && Sound(wf, base, r) && Covers(cache, r.history)
    requires cut <= |Exec(wf, seen, cache, env, fuel).actions|
    ensures var plan := Exec(wf, seen, cache, env, fuel);
            var done := ApplyAll(r, plan.actions);
            && Sound(wf, base, After(r, plan.actions, cut)) && Sound(wf, base, done)
            && CallsFresh(r, plan.actions, cut)
            && (plan.end.WaitsFor? ==>
                  plan.end.channel in done.subscriptions && !HasId(done.history, plan.end.id))
    decreases fuel
  {
    hide ApplyAll, After, Exec, TurnOf, IdOf, Sound, CallsFresh, WellNamed, Covers, HasId;
    ExecStep(wf, seen, cache, env, fuel);
    ApplyNone(r);
    SoundIsClear(wf, base, r);
    if fuel == 0 || Ends(wf(seen)) {
      AfterNone(r);
      NoCallsFresh(r);
    } else {
      var turn := TurnOf(wf, seen, cache, env);
      var next := ApplyAll(r, turn.actions);
      TurnSound(wf, base, r, seen, cache, env, if cut <= |turn.actions| then cut else 0);
      if turn.outcome.None? {
        WaitEnds(wf, base, r, seen, cache, env);
      } else {
        var rest := Exec(wf, seen + [turn.outcome.value], turn.cache, env, fuel - 1);
        CutConcat(r, turn.actions, rest.actions, cut);
        ApplyConcat(r, turn.actions, rest.actions);
        ExecSound(wf, base, next, seen + [turn.outcome.value], turn.cache, env, fuel - 1,
          if |turn.actions| <= cut then cut - |turn.actions| else 0);
        CallsFreshConcat(r, turn.actions, rest.actions, cut);
      }
    }
  }

  lemma NoCallsFresh(r: Row)
    ensures CallsFresh(r, [], 0)
  {
  }

  lemma WaitEnds(wf: Workflow, base: Row, r: Row, seen: seq<Outcome>, cache: map<string, Outcome>, env: Env)
    requires WellNamed(wf) && Sound(wf, base, r) && Covers(cache, r.history) && !Ends(wf(seen))
    requires TurnOf(wf, seen, cache, env).outcome.None?
    ensures var end, done := Suspension(wf(seen), IdOf(wf, seen), env), ApplyAll(r, TurnOf(wf, seen, cache, env).actions);
            end.WaitsFor? ==> end.channel in done.subscriptions && !HasId(done.history, end.id)
  {
    hide IdOf, HasId, WellNamed, ApplyAll;
    var c := wf(seen);
    SoundIsClear(wf, base, r);
    UncachedIsUnrecorded(wf, r, cache, seen);
    PreparedRow(r, c);
    if c.WaitEvent? {
      ApplyPair(r, Subscribe(c.channel), Subscribe(c.channel));
    }
  }
}
