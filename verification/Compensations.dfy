/** The three loops that roll a workflow back: the engine's, the app's and the executor's. */
module Compensations {
  import opened Prelude
  import opened ActivityIds
  import opened Ordering
  import opened Tables
  import opened Saga
  import opened Storage
  import opened HistoryIterators

  /**
   * The registered executors, by activity name, and what each entry's executor fails with;
   * the loops do not share the words for a missing one.
   */
  datatype Executors = Executors(names: set<string>, fails: Compensation -> Option<string>)

  function EngineErrors(x: Executors): Compensation -> Option<string> {
    (c: Compensation) => if c.activityName in x.names then x.fails(c)
                         else Some("compensation executor not found for " + c.activityName)
  }

  function AppErrors(x: Executors): Compensation -> Option<string> {
    (c: Compensation) => if c.activityName in x.names then x.fails(c) else Some("executor not found")
  }

  function ExecutorErrors(x: Executors): Compensation -> Option<string> {
    (c: Compensation) => if c.activityName in x.names then x.fails(c)
                         else Some("compensation function not found: " + c.activityName)
  }

  /** What is left to do. */
  function Pending(entries: seq<Compensation>, executed: set<nat>): seq<Compensation> {
    Filter(entries, (c: Compensation) => c.id !in executed)
  }

  function Todo(r: Row): seq<Compensation> {
    Pending(Lifo(r.compensations), ExecutedIds(r.history))
  }

  /** The entries whose executors are called, in order. */
  function Called(entries: seq<Compensation>, x: Executors): seq<Compensation> {
    Filter(entries, (c: Compensation) => c.activityName in x.names)
  }

  /** The entries that fail. */
  function Failing(entries: seq<Compensation>, errors: Compensation -> Option<string>): seq<Compensation> {
    Filter(entries, (c: Compensation) => errors(c).Some?)
  }

  /** The entries whose executors ran and failed. */
  function Broken(entries: seq<Compensation>, x: Executors): seq<Compensation> {
    Filter(entries, (c: Compensation) => c.activityName in x.names && x.fails(c).Some?)
  }

  function Message(error: Option<string>): string {
    if error.Some? then error.value else ""
  }

  lemma {:induction false} PassSnoc(
    entries: seq<Compensation>, c: Compensation, executed: set<nat>, errors: Compensation -> Option<string>)
    ensures PassActions(entries + [c], executed, errors) ==
            PassActions(entries, executed, errors)
            + if c.id in executed then [] else [Call(RecordId(c.id)), Append(ResultEvent(c, errors(c)))]
    decreases |entries|
  {
    if entries == [] {
      assert [] + [c] == [c] && [c][1..] == [];
    } else {
      assert (entries + [c])[1..] == entries[1..] + [c];
      PassSnoc(entries[1..], c, executed, errors);
    }
  }

  lemma PendingSnoc(entries: seq<Compensation>, c: Compensation, executed: set<nat>)
    ensures Pending(entries + [c], executed) ==
            Pending(entries, executed) + if c.id in executed then [] else [c]
  {
    FilterSnoc(entries, c, (c: Compensation) => c.id !in executed);
  }

  lemma FailingSnoc(entries: seq<Compensation>, c: Compensation, errors: Compensation -> Option<string>)
    ensures Failing(entries + [c], errors) == Failing(entries, errors) + if errors(c).Some? then [c] else []
  {
    FilterSnoc(entries, c, (c: Compensation) => errors(c).Some?);
  }

  lemma CalledSnoc(entries: seq<Compensation>, c: Compensation, x: Executors)
    ensures Called(entries + [c], x) == Called(entries, x) + if c.activityName in x.names then [c] else []
  {
    FilterSnoc(entries, c, (c: Compensation) => c.activityName in x.names);
  }

  lemma BrokenSnoc(entries: seq<Compensation>, c: Compensation, x: Executors)
    ensures Broken(entries + [c], x) ==
            Broken(entries, x) + if c.activityName in x.names && x.fails(c).Some? then [c] else []
  {
    FilterSnoc(entries, c, (c: Compensation) => c.activityName in x.names && x.fails(c).Some?);
  }

  // ---- What a rollback records ----

  /**
   * A pass appends one record for every entry that is left, in order, and changes nothing else;
   * the record of an entry names it, and is a failure with the error if there was one, else a
   * success without.
   */
  lemma {:induction false} PassRecords(
    r: Row, entries: seq<Compensation>, executed: set<nat>, errors: Compensation -> Option<string>)
    requires r.tx.None? && DistinctIds(entries)
    requires forall k :: 0 <= k < |entries| && entries[k].id !in executed ==> !HasId(r.history, RecordId(entries[k].id))
    ensures var r', left := ApplyAll(r, PassActions(entries, executed, errors)), Pending(entries, executed);
            && r' == r.(history := r'.history) && r.history <= r'.history
            && |r'.history| == |r.history| + |left|
            && forall k :: 0 <= k < |left| ==>
                 var e, error := r'.history[|r.history| + k], errors(left[k]);
                 && e.activityId == Render("compensation", left[k].id)
                 && e.kind == (if error.Some? then CompensationFailed else CompensationExecuted)
                 && e.data == CompensationResult(left[k].id, left[k].activityName, if error.Some? then error.value else "")
    decreases |entries|
  {
    hide Apply, ApplyAll, Pending, PassActions, HasId;
    if entries == [] {
      NothingLeft(executed, errors);
      ApplyNone(r);
    } else {
      var init, c := entries[..|entries| - 1], entries[|entries| - 1];
      assert entries == init + [c];
      assert forall k :: 0 <= k < |init| ==> init[k] == entries[k];
      PassRecords(r, init, executed, errors);
      PassSnoc(init, c, executed, errors);
      PendingSnoc(init, c, executed);
      var done, mid := PassActions(init, executed, errors), ApplyAll(r, PassActions(init, executed, errors));
      if c.id in executed {
        assert done + [] == done && Pending(init, executed) + [] == Pending(init, executed);
      } else {
        TurnApplied(r, done, c, errors(c));
        LeftAreOthers(entries, executed);
        NewRecord(r.history, mid.history, Pending(init, executed), c);
        RecordApplied(mid, c, errors(c));
      }
    }
  }

  lemma NothingLeft(executed: set<nat>, errors: Compensation -> Option<string>)
    ensures Pending([], executed) == [] && PassActions([], executed, errors) == []
  {
  }

  /** What is left of the earlier entries has other ids than the last. */
  lemma LeftAreOthers(entries: seq<Compensation>, executed: set<nat>)
    requires entries != [] && DistinctIds(entries)
    ensures var left := Pending(entries[..|entries| - 1], executed);
            forall k :: 0 <= k < |left| ==> left[k].id != entries[|entries| - 1].id
  {
    var init := entries[..|entries| - 1];
    FilterMembers(init, (c: Compensation) => c.id !in executed);
    var left := Pending(init, executed);
    forall k | 0 <= k < |left| ensures left[k].id != entries[|entries| - 1].id {
      assert left[k] in init;
    }
  }

  lemma NewRecord(history: seq<Event>, more: seq<Event>, left: seq<Compensation>, c: Compensation)
    requires history <= more && |more| == |history| + |left| && !HasId(history, RecordId(c.id))
    requires forall k :: 0 <= k < |left| ==>
               more[|history| + k].activityId == Render("compensation", left[k].id) && left[k].id != c.id
    ensures !HasId(more, RecordId(c.id))
  {
    forall i | 0 <= i < |more| ensures more[i].activityId != RecordId(c.id) {
      if i < |history| {
        assert history[i] == more[i];
      } else {
        RecordIdsDiffer(left[i - |history|].id, c.id);
      }
    }
  }

  lemma RecordApplied(r: Row, c: Compensation, error: Option<string>)
    requires r.tx.None? && !HasId(r.history, RecordId(c.id))
    ensures var e := Event(Render("compensation", c.id), if error.Some? then CompensationFailed else CompensationExecuted,
                           CompensationResult(c.id, c.activityName, if error.Some? then error.value else ""));
            Apply(r, Append(ResultEvent(c, error))) == r.(history := r.history + [e])
  {
  }

  /** A rollback does so with the entries that have no result, newest first. */
  lemma RollbackRecords(r: Row, errors: Compensation -> Option<string>)
    requires Ready(r)
    ensures var r', left := ApplyAll(r, RollbackActions(r, errors)), Todo(r);
            && r' == r.(history := r'.history) && r.history <= r'.history
            && |r'.history| == |r.history| + |left|
            && forall k :: 0 <= k < |left| ==>
                 var e, error := r'.history[|r.history| + k], errors(left[k]);
                 && e.activityId == Render("compensation", left[k].id)
                 && e.kind == (if error.Some? then CompensationFailed else CompensationExecuted)
                 && e.data == CompensationResult(left[k].id, left[k].activityName, if error.Some? then error.value else "")
  {
    hide ApplyAll, PassActions, Lifo, HasId, ExecutedIds;
    LifoKeepsIdsDistinct(r.compensations);
    var lifo := Lifo(r.compensations);
    forall k | 0 <= k < |lifo| && lifo[k].id !in ExecutedIds(r.history) ensures !HasId(r.history, RecordId(lifo[k].id)) {
      LifoMember(r.compensations, k);
    }
    PassRecords(r, lifo, ExecutedIds(r.history), errors);
  }

  /** One entry's turn, as the tables see it. */
  lemma TurnApplied(r: Row, done: seq<Action>, c: Compensation, error: Option<string>)
    ensures ApplyAll(r, done + [Call(RecordId(c.id)), Append(ResultEvent(c, error))]) ==
            Apply(ApplyAll(r, done), Append(ResultEvent(c, error)))
  {
    hide Apply;
    var mid := ApplyAll(r, done);
    ApplyConcat(r, done, [Call(RecordId(c.id)), Append(ResultEvent(c, error))]);
    ApplyPair(mid, Call(RecordId(c.id)), Append(ResultEvent(c, error)));
    CallApplied(mid, RecordId(c.id));
  }

  lemma CallApplied(r: Row, id: string)
    ensures Apply(r, Call(id)) == r
  {
  }

  method RecordCompensationResult(storage: SqliteStorage, i: string, entry: Compensation, error: Option<string>)
    requires storage.Valid() && storage.tx.None?
    modifies storage
    ensures storage.Valid() && storage.Touches(i) && storage.tx.None?
    ensures storage.Row(i) == Apply(old(storage.Row(i)), Append(ResultEvent(entry, error)))
  {
    hide Apply;
    var kind := if error.None? then CompensationExecuted else CompensationFailed;
    var text := if error.None? then "" else error.value;
    storage.AppendHistory(i,
      Event(Render("compensation", entry.id), kind, CompensationResult(entry.id, entry.activityName, text)));
  }

  /** A loop has passed `entries`: what it has done, called and met. */
  ghost predicate Passed(
    r: Row, row: Row, entries: seq<Compensation>, executed: set<nat>, errors: Compensation -> Option<string>,
    x: Executors, called: seq<Compensation>, failing: seq<Compensation>, broken: seq<Compensation>)
  {
    && row == ApplyAll(r, PassActions(entries, executed, errors))
    && called == Called(Pending(entries, executed), x)
    && failing == Failing(Pending(entries, executed), errors)
    && broken == Broken(Pending(entries, executed), x)
  }

  lemma NonePassed(r: Row, executed: set<nat>, errors: Compensation -> Option<string>, x: Executors)
    ensures Passed(r, r, [], executed, errors, x, [], [], [])
  {
  }

  /** An entry that was executed before changes nothing; any other has its turn. */
  lemma OnePassed(
    r: Row, row: Row, entries: seq<Compensation>, c: Compensation, executed: set<nat>,
    errors: Compensation -> Option<string>, x: Executors,
    called: seq<Compensation>, failing: seq<Compensation>, broken: seq<Compensation>)
    requires Passed(r, row, entries, executed, errors, x, called, failing, broken)
    ensures if c.id in executed then Passed(r, row, entries + [c], executed, errors, x, called, failing, broken)
            else
              Passed(r, Apply(row, Append(ResultEvent(c, errors(c)))), entries + [c], executed, errors, x,
                called + (if c.activityName in x.names then [c] else []),
                failing + (if errors(c).Some? then [c] else []),
                broken + if c.activityName in x.names && x.fails(c).Some? then [c] else [])
  {
    hide Apply, ApplyAll, PassActions, Pending, Called, Failing, Broken;
    PassSnoc(entries, c, executed, errors);
    PendingSnoc(entries, c, executed);
    var done := PassActions(entries, executed, errors);
    if c.id in executed {
      assert done + [] == done && Pending(entries, executed) + [] == Pending(entries, executed);
    } else {
      TurnApplied(r, done, c, errors(c));
      CalledSnoc(Pending(entries, executed), c, x);
      FailingSnoc(Pending(entries, executed), c, errors);
      BrokenSnoc(Pending(entries, executed), c, x);
    }
  }

  /** A loop is through: a rollback has been done. */
  lemma AllPassed(
    r: Row, row: Row, errors: Compensation -> Option<string>, x: Executors,
    called: seq<Compensation>, failing: seq<Compensation>, broken: seq<Compensation>)
    requires Passed(r, row, Lifo(r.compensations), ExecutedIds(r.history), errors, x, called, failing, broken)
    ensures row == ApplyAll(r, RollbackActions(r, errors))
    ensures called == Called(Todo(r), x) && failing == Failing(Todo(r), errors) && broken == Broken(Todo(r), x)
  {
  }

  /** Without entries a loop is through before it starts. */
  lemma NothingTodo(r: Row, errors: Compensation -> Option<string>, x: Executors)
    requires Lifo(r.compensations) == []
    ensures Passed(r, r, Lifo(r.compensations), ExecutedIds(r.history), errors, x, [], [], [])
  {
  }

  /** What the engine's loop returns: the first failure. */
  function EngineVerdict(r: Row, x: Executors): Option<string> {
    var errors := EngineErrors(x);
    var failing := Failing(Todo(r), errors);
    if failing == [] then None
    else Some("compensation " + failing[0].activityId + " failed: " + Message(errors(failing[0])))
  }

  /** What the app's loop returns: the last failure of an executor. */
  function AppVerdict(r: Row, x: Executors): Option<string> {
    var broken := Broken(Todo(r), x);
    if broken == [] then None else x.fails(broken[|broken| - 1])
  }

  lemma {:induction false} FirstKept(entries: seq<Compensation>, keep: Compensation -> bool) returns (k: nat)
    requires Filter(entries, keep) != []
    ensures k < |entries| && keep(entries[k]) && Filter(entries, keep)[0] == entries[k]
    ensures forall j :: 0 <= j < k ==> !keep(entries[j])
  {
    var init, last := entries[..|entries| - 1], |entries| - 1;
    if Filter(init, keep) != [] {
      k := FirstKept(init, keep);
    } else {
      k := last;
      NoneKept(init, keep);
    }
  }

  lemma {:induction false} NoneKept(entries: seq<Compensation>, keep: Compensation -> bool)
    requires Filter(entries, keep) == []
    ensures forall j :: 0 <= j < |entries| ==> !keep(entries[j])
  {
    FilterMembers(entries, keep);
    forall j | 0 <= j < |entries| ensures !keep(entries[j]) {
      assert entries[j] in entries;
    }
  }

  lemma {:induction false} LastKept(entries: seq<Compensation>, keep: Compensation -> bool) returns (k: nat)
    requires Filter(entries, keep) != []
    ensures var kept := Filter(entries, keep);
            k < |entries| && keep(entries[k]) && kept[|kept| - 1] == entries[k]
    ensures forall j :: k < j < |entries| ==> !keep(entries[j])
  {
    var init, last := entries[..|entries| - 1], |entries| - 1;
    if keep(entries[last]) {
      k := last;
    } else {
      assert Filter(entries, keep) == Filter(init, keep);
      k := LastKept(init, keep);
    }
  }

  /**
   * The engine returns the error of the first entry that fails, a missing executor counting as a
   * failure; the app that of the last entry whose executor fails; and none if there is no such entry.
   */
  lemma VerdictsMean(r: Row, x: Executors)
    ensures var todo, errors := Todo(r), EngineErrors(x);
            if forall k :: 0 <= k < |todo| ==> errors(todo[k]).None? then EngineVerdict(r, x) == None
            else exists k :: 0 <= k < |todo| && errors(todo[k]).Some? && (forall j :: 0 <= j < k ==> errors(todo[j]).None?)
                   && EngineVerdict(r, x) ==
                      Some("compensation " + todo[k].activityId + " failed: " + errors(todo[k]).value)
    ensures var todo := Todo(r);
            if forall k :: 0 <= k < |todo| && todo[k].activityName in x.names ==> x.fails(todo[k]).None?
            then AppVerdict(r, x) == None
            else exists k :: 0 <= k < |todo| && todo[k].activityName in x.names && x.fails(todo[k]).Some?
                   && (forall j :: k < j < |todo| && todo[j].activityName in x.names ==> x.fails(todo[j]).None?)
                   && AppVerdict(r, x) == x.fails(todo[k])
  {
    hide Todo, Filter;
    var todo, errors := Todo(r), EngineErrors(x);
    var fails := (c: Compensation) => errors(c).Some?;
    var breaks := (c: Compensation) => c.activityName in x.names && x.fails(c).Some?;
    if Failing(todo, errors) == [] {
      NoneKept(todo, fails);
    } else {
      var k := FirstKept(todo, fails);
    }
    if Broken(todo, x) == [] {
      NoneKept(todo, breaks);
    } else {
      var k := LastKept(todo, breaks);
    }
  }

  /** The queries for a rollback: the entries first, then the pages of the history. */
  ghost predicate Scanned(r: Row, answers: nat -> bool) {
    Reads(|r.history|, 100, (k: nat) => answers(k + 1))
  }

  lemma NoEntries(entries: seq<Compensation>, table: seq<Compensation>)
    requires multiset(entries) == multiset(table)
    ensures entries == [] <==> table == []
  {
    assert |multiset(entries)| == |multiset(table)|;
  }

  /** The entries, in the order of the query. */
  method LoadEntries(storage: SqliteStorage, i: string) returns (entries: seq<Compensation>)
    requires storage.Valid()
    ensures entries == Lifo(storage.Row(i).compensations)
    ensures entries == [] <==> storage.Row(i).compensations == []
  {
    hide SqliteStorage.Row, SqliteStorage.Valid, Lifo, Sorted, Numbered;
    entries := storage.GetCompensations(i);
    SortedIsLifo(entries, storage.Row(i).compensations, storage.nextCompensation);
    NoEntries(entries, storage.Row(i).compensations);
  }

  /** The engine's executeCompensations, and the fields it reads. */
  class EngineRollback {
    const storage: SqliteStorage
    const executors: Executors
    const hasRunner: bool

    constructor (storage: SqliteStorage, executors: Executors, hasRunner: bool)
      ensures this.storage == storage && this.executors == executors && this.hasRunner == hasRunner
    {
      this.storage, this.executors, this.hasRunner := storage, executors, hasRunner;
    }

    /** The runner the app installs. */
    function Run(entry: Compensation): (error: Option<string>)
      ensures error == EngineErrors(executors)(entry)
    {
      if entry.activityName in executors.names then executors.fails(entry)
      else Some("compensation executor not found for " + entry.activityName)
    }

    /** Whether a rollback takes place: with its queries answered, and a runner if it has entries. */
    ghost predicate RollsBack(r: Row, answers: nat -> bool) {
      answers(0) && (r.compensations == [] || (hasRunner && Scanned(r, answers)))
    }

    lemma AnsweredRollsBack(r: Row, answers: nat -> bool)
      requires (forall k :: answers(k)) && (hasRunner || r.compensations == [])
      ensures RollsBack(r, answers)
    {
    }

    /**
     * Goes on after a failure, and returns the first one.  Without a runner, or with a query
     * failed, nothing is compensated.
     */
    method ExecuteCompensations(i: string, answers: nat -> bool) returns (err: Option<string>, called: seq<Compensation>)
      requires storage.Valid() && storage.tx.None?
      modifies storage
      ensures storage.Valid() && storage.Touches(i) && storage.tx.None?
      ensures var r, errors := old(storage.Row(i)), EngineErrors(executors);
              if RollsBack(r, answers) then
                && storage.Row(i) == ApplyAll(r, RollbackActions(r, errors))
                && called == Called(Todo(r), executors) && err == EngineVerdict(r, executors)
              else storage.Row(i) == r && called == [] && (err.None? <==> answers(0) && !hasRunner)
      ensures (forall k :: answers(k)) && (hasRunner || old(storage.Row(i)).compensations == []) ==>
                storage.Row(i) == ApplyAll(old(storage.Row(i)), RollbackActions(old(storage.Row(i)), EngineErrors(executors)))
    {
      hide Apply, ApplyAll, Lifo, ExecutedIds, Passed, Reads, Called, Failing, Todo, RollbackActions,
           SqliteStorage.Row, SqliteStorage.Valid;
      ghost var r, errors := storage.Row(i), EngineErrors(executors);
      ghost var failing: seq<Compensation>, broken: seq<Compensation> := [], [];
      err, called := None, [];
      if !answers(0) {
        return Some("failed to get compensations"), [];
      }
      var entries := LoadEntries(storage, i);
      if |entries| == 0 {
        NothingTodo(r, errors, executors);
        AllPassed(r, r, errors, executors, [], [], []);
        return;
      }
      if !hasRunner {
        return;
      }
      var found := GetExecutedCompensationIDs(storage, i, 100, (k: nat) => answers(k + 1));
      if found.Failure? {
        return Some("failed to get executed compensations: " + found.error), [];
      }
      var executed := found.value;
      NonePassed(r, executed, errors, executors);
      var k := 0;
      assert entries[..0] == [];
      while k < |entries|
        invariant 0 <= k <= |entries| && storage.Valid() && storage.Touches(i) && storage.tx.None?
        invariant Passed(r, storage.Row(i), entries[..k], executed, errors, executors, called, failing, broken)
        invariant err == if failing == [] then None
                         else Some("compensation " + failing[0].activityId + " failed: " + Message(errors(failing[0])))
      {
        var entry := entries[k];
        assert entries[..k + 1] == entries[..k] + [entry];
        OnePassed(r, storage.Row(i), entries[..k], entry, executed, errors, executors, called, failing, broken);
        if entry.id !in executed {
          var execErr := Run(entry);
          called := called + if entry.activityName in executors.names then [entry] else [];
          failing := failing + if execErr.Some? then [entry] else [];
          broken := broken + if entry.activityName in executors.names && executors.fails(entry).Some? then [entry] else [];
          RecordCompensationResult(storage, i, entry, execErr);
          if execErr.Some? && err == None {
            err := Some("compensation " + entry.activityId + " failed: " + execErr.value);
          }
        }
        k := k + 1;
      }
      assert entries[..k] == entries;
      AllPassed(r, storage.Row(i), errors, executors, called, failing, broken);
    }
  }

  /** The app's executeCompensations, which a cancellation runs. */
  class AppRollback {
    const storage: SqliteStorage
    const executors: Executors

    constructor (storage: SqliteStorage, executors: Executors)
      ensures this.storage == storage && this.executors == executors
    {
      this.storage, this.executors := storage, executors;
    }

    ghost predicate RollsBack(r: Row, answers: nat -> bool) {
      answers(0) && (r.compensations == [] || Scanned(r, answers))
    }

    lemma AnsweredRollsBack(r: Row, answers: nat -> bool)
      requires forall k :: answers(k)
      ensures RollsBack(r, answers)
    {
    }

    /** Goes on after a failure, and returns the last one; a missing executor is not one. */
    method ExecuteCompensations(i: string, answers: nat -> bool) returns (err: Option<string>, called: seq<Compensation>)
      requires storage.Valid() && storage.tx.None?
      modifies storage
      ensures storage.Valid() && storage.Touches(i) && storage.tx.None?
      ensures var r, errors := old(storage.Row(i)), AppErrors(executors);
              if RollsBack(r, answers) then
                && storage.Row(i) == ApplyAll(r, RollbackActions(r, errors))
                && called == Called(Todo(r), executors) && err == AppVerdict(r, executors)
              else storage.Row(i) == r && called == [] && err.Some?
      ensures (forall k :: answers(k)) ==>
                storage.Row(i) == ApplyAll(old(storage.Row(i)), RollbackActions(old(storage.Row(i)), AppErrors(executors)))
    {
      hide Apply, ApplyAll, Lifo, ExecutedIds, Passed, Reads, Called, Broken, Todo, RollbackActions, SqliteStorage.Row,
           SqliteStorage.Valid;
      ghost var r, errors := storage.Row(i), AppErrors(executors);
      ghost var failing: seq<Compensation>, broken: seq<Compensation> := [], [];
      var lastErr: Option<string> := None;
      err, called := None, [];
      if !answers(0) {
        return Some("failed to get compensations"), [];
      }
      var entries := LoadEntries(storage, i);
      if |entries| == 0 {
        NothingTodo(r, errors, executors);
        AllPassed(r, r, errors, executors, [], [], []);
        return;
      }
      var found := GetExecutedCompensationIDs(storage, i, 100, (k: nat) => answers(k + 1));
      if found.Failure? {
        return Some("failed to get executed compensations: " + found.error), [];
      }
      var executed := found.value;
      NonePassed(r, executed, errors, executors);
      var k := 0;
      assert entries[..0] == [];
      while k < |entries|
        invariant 0 <= k <= |entries| && storage.Valid() && storage.Touches(i) && storage.tx.None?
        invariant Passed(r, storage.Row(i), entries[..k], executed, errors, executors, called, failing, broken)
        invariant lastErr == if broken == [] then None else executors.fails(broken[|broken| - 1])
        invariant forall b :: 0 <= b < |broken| ==> executors.fails(broken[b]).Some?
      {
        var entry := entries[k];
        assert entries[..k + 1] == entries[..k] + [entry];
        OnePassed(r, storage.Row(i), entries[..k], entry, executed, errors, executors, called, failing, broken);
        if entry.id !in executed {
          assert called + [] == called && broken + [] == broken;
          failing := failing + if errors(entry).Some? then [entry] else [];
          if entry.activityName !in executors.names {
            RecordCompensationResult(storage, i, entry, Some("executor not found"));
          } else {
            called := called + [entry];
            var e := executors.fails(entry);
            RecordCompensationResult(storage, i, entry, e);
            if e.Some? {
              broken := broken + [entry];
              lastErr := e;
            }
          }
        }
        k := k + 1;
      }
      assert entries[..k] == entries;
      AllPassed(r, storage.Row(i), errors, executors, called, failing, broken);
      err := lastErr;
    }
  }

  /** The compensation package's executor, with a registry of its own. */
  class Executor {
    const storage: SqliteStorage
    const registry: Executors

    constructor (storage: SqliteStorage, registry: Executors)
      ensures this.storage == storage && this.registry == registry
    {
      this.storage, this.registry := storage, registry;
    }

    function ExecuteOne(entry: Compensation): (error: Option<string>)
      ensures error == ExecutorErrors(registry)(entry)
    {
      if entry.activityName in registry.names then registry.fails(entry)
      else Some("compensation function not found: " + entry.activityName)
    }

    /** Goes on after a failure, and returns the first one. */
    method ExecuteCompensations(i: string, answers: nat -> bool) returns (err: Option<string>, called: seq<Compensation>)
      requires storage.Valid() && storage.tx.None?
      modifies storage
      ensures storage.Valid() && storage.Touches(i) && storage.tx.None?
      ensures var r, errors := old(storage.Row(i)), ExecutorErrors(registry);
              if answers(0) && Scanned(r, answers) then
                && storage.Row(i) == ApplyAll(r, RollbackActions(r, errors))
                && called == Called(Todo(r), registry)
                && var failing := Failing(Todo(r), errors);
                   err == if failing == [] then None else errors(failing[0])
              else storage.Row(i) == r && called == [] && err.Some?
      ensures (forall k :: answers(k)) ==>
                storage.Row(i) == ApplyAll(old(storage.Row(i)), RollbackActions(old(storage.Row(i)), ExecutorErrors(registry)))
    {
      hide Apply, ApplyAll, Lifo, ExecutedIds, Passed, Reads, Called, Failing, Todo, RollbackActions,
           SqliteStorage.Row, SqliteStorage.Valid;
      ghost var r, errors := storage.Row(i), ExecutorErrors(registry);
      ghost var failing: seq<Compensation>, broken: seq<Compensation> := [], [];
      err, called := None, [];
      if !answers(0) {
        return Some("failed to get compensations"), [];
      }
      var entries := LoadEntries(storage, i);
      var found := GetExecutedCompensationIDs(storage, i, 100, (k: nat) => answers(k + 1));
      if found.Failure? {
        return Some("failed to get executed compensations: " + found.error), [];
      }
      var executed := found.value;
      NonePassed(r, executed, errors, registry);
      var k := 0;
      assert entries[..0] == [];
      while k < |entries|
        invariant 0 <= k <= |entries| && storage.Valid() && storage.Touches(i) && storage.tx.None?
        invariant Passed(r, storage.Row(i), entries[..k], executed, errors, registry, called, failing, broken)
        invariant err == if failing == [] then None else errors(failing[0])
        invariant forall f :: 0 <= f < |failing| ==> errors(failing[f]).Some?
      {
        var entry := entries[k];
        assert entries[..k + 1] == entries[..k] + [entry];
        OnePassed(r, storage.Row(i), entries[..k], entry, executed, errors, registry, called, failing, broken);
        if entry.id !in executed {
          var execErr := ExecuteOne(entry);
          called := called + if entry.activityName in registry.names then [entry] else [];
          failing := failing + if execErr.Some? then [entry] else [];
          broken := broken + if entry.activityName in registry.names && registry.fails(entry).Some? then [entry] else [];
          RecordCompensationResult(storage, i, entry, execErr);
          if execErr.Some? && err == None {
            err := execErr;
          }
        }
        k := k + 1;
      }
      assert entries[..k] == entries;
      AllPassed(r, storage.Row(i), errors, registry, called, failing, broken);
    }
  }

  // ---- The loops agree ----

  datatype Verdict = Verdict(id: nat, executed: bool)

  /** What the results a loop appends say, but for the words of an error. */
  function Verdicts(actions: seq<Action>): seq<Verdict> {
    if actions == [] then []
    else
      (if actions[0].Append? && IsResult(actions[0].event)
       then [Verdict(actions[0].event.data.compensationId, actions[0].event.kind.CompensationExecuted?)] else [])
      + Verdicts(actions[1..])
  }

  ghost predicate FailAlike(errors: Compensation -> Option<string>, errors': Compensation -> Option<string>) {
    forall c :: errors(c).Some? <==> errors'(c).Some?
  }

  lemma VerdictsCons(a: Action, b: Action, rest: seq<Action>)
    requires a.Call? && b.Append? && IsResult(b.event)
    ensures Verdicts([a, b] + rest) ==
            [Verdict(b.event.data.compensationId, b.event.kind.CompensationExecuted?)] + Verdicts(rest)
    ensures CallsOf([a, b] + rest) == [a.id] + CallsOf(rest)
  {
    assert ([a, b] + rest)[1..] == [b] + rest && ([b] + rest)[1..] == rest;
  }

  lemma {:induction false} AlikePasses(
    entries: seq<Compensation>, executed: set<nat>,
    errors: Compensation -> Option<string>, errors': Compensation -> Option<string>)
    requires FailAlike(errors, errors')
    ensures var pass, pass' := PassActions(entries, executed, errors), PassActions(entries, executed, errors');
            Verdicts(pass) == Verdicts(pass') && CallsOf(pass) == CallsOf(pass')
    decreases |entries|
  {
    hide Verdicts, CallsOf;
    if entries != [] {
      var c := entries[0];
      AlikePasses(entries[1..], executed, errors, errors');
      var rest, rest' := PassActions(entries[1..], executed, errors), PassActions(entries[1..], executed, errors');
      if c.id in executed {
        assert [] + rest == rest && [] + rest' == rest';
      } else {
        VerdictsCons(Call(RecordId(c.id)), Append(ResultEvent(c, errors(c))), rest);
        VerdictsCons(Call(RecordId(c.id)), Append(ResultEvent(c, errors'(c))), rest');
      }
    }
  }

  /**
   * Given the same entries, history, executors and outcomes, the three loops take the same
   * entries in the same order and append the same sequence of ids and verdicts.
   */
  lemma LoopsAgree(r: Row, x: Executors)
    ensures var engine, app, executor := RollbackActions(r, EngineErrors(x)), RollbackActions(r, AppErrors(x)),
                                         RollbackActions(r, ExecutorErrors(x));
            && Verdicts(engine) == Verdicts(app) == Verdicts(executor)
            && CallsOf(engine) == CallsOf(app) == CallsOf(executor)
    ensures Failing(Todo(r), EngineErrors(x)) == Failing(Todo(r), ExecutorErrors(x)) == Failing(Todo(r), AppErrors(x))
  {
    AlikePasses(Lifo(r.compensations), ExecutedIds(r.history), EngineErrors(x), AppErrors(x));
    AlikePasses(Lifo(r.compensations), ExecutedIds(r.history), EngineErrors(x), ExecutorErrors(x));
    AlikeFailing(Todo(r), EngineErrors(x), AppErrors(x));
    AlikeFailing(Todo(r), EngineErrors(x), ExecutorErrors(x));
  }

  lemma {:induction false} AlikeFailing(
    entries: seq<Compensation>, errors: Compensation -> Option<string>, errors': Compensation -> Option<string>)
    requires FailAlike(errors, errors')
    ensures Failing(entries, errors) == Failing(entries, errors')
  {
    hide Failing;
    if entries == [] {
      NoneFailing(errors);
      NoneFailing(errors');
    } else {
      var init, c := entries[..|entries| - 1], entries[|entries| - 1];
      AlikeFailing(init, errors, errors');
      assert entries == init + [c];
      FailingSnoc(init, c, errors);
      FailingSnoc(init, c, errors');
    }
  }

  lemma NoneFailing(errors: Compensation -> Option<string>)
    ensures Failing([], errors) == []
  {
  }

  /**
   * Where they do not agree.  Over the same entries, history, executors and outcomes the app reports
   * no error that the engine does not; and the engine returns an error where the app returns none
   * exactly if an entry that is left to do has no executor, and no executor that is called fails.
   */
  lemma AppForgetsMissing(r: Row, x: Executors)
    ensures AppVerdict(r, x).Some? ==> EngineVerdict(r, x).Some?
    ensures EngineVerdict(r, x).Some? && AppVerdict(r, x).None? <==>
            (exists c :: c in Todo(r) && c.activityName !in x.names)
            && (forall c :: c in Called(Todo(r), x) ==> x.fails(c).None?)
  {
    hide Todo;
    FilterMembers(Todo(r), (c: Compensation) => EngineErrors(x)(c).Some?);
    FilterMembers(Todo(r), (c: Compensation) => c.activityName in x.names && x.fails(c).Some?);
    FilterMembers(Todo(r), (c: Compensation) => c.activityName in x.names);
    var failing, broken := Failing(Todo(r), EngineErrors(x)), Broken(Todo(r), x);
    assert broken != [] ==> broken[|broken| - 1] in broken && broken[0] in broken;
    assert failing != [] ==> failing[0] in failing;
    assert forall c :: c in broken ==> c in failing && c in Called(Todo(r), x);
    assert forall c :: c in failing && c !in broken ==> c.activityName !in x.names;
  }
}
