/**
 * The tables of one workflow instance, and the statements that change them.
 *
 * Every protocol step of the system is a list of actions.  A crash keeps a prefix of the
 * list and loses the open transaction, so "a crash at any point" is "any prefix".
 */
module Tables {
  import opened Prelude
  import opened ActivityIds
  import opened Clock
  import opened Locks

  datatype Status =
    | Running | Completed | Failed | Cancelled
    | WaitingForTimer | WaitingForMessage | Recurred

  predicate Terminal(s: Status) {
    s.Completed? || s.Failed? || s.Cancelled?
  }

  datatype EventType =
    | ActivityCompleted | ActivityFailed
    | ChannelMessageReceived | MessageTimeout
    | CompensationExecuted | CompensationFailed
    | WorkflowFailed

  /** Event data: an opaque JSON text, or the fields a compensation record carries. */
  datatype Payload =
    | Json(text: string)
    | CompensationResult(compensationId: nat, activityName: string, error: string)

  datatype Event = Event(activityId: string, kind: EventType, data: Payload)

  datatype Compensation = Compensation(id: nat, activityId: string, activityName: string, createdAt: nat)

  /** A subscription's waiting columns; they are set exactly while `activity_id` is not null. */
  datatype Wait = Wait(activityId: string, timeoutAt: Option<nat>)

  /** What a call hands back to workflow code. */
  datatype Outcome = Ok(value: string) | Err(message: string)

  datatype Action =
    // statements on workflow_instances
    | Acquire(worker: string, expires: nat)
    | ReleaseBy(worker: string)
    | BreakLock
    | SetStatus(status: Status)
    | SetOutput(output: string)
    // statements on the other tables
    | Append(event: Event)
    | AddCompensation(activityId: string, activityName: string, createdAt: nat)
    | UserWrite(id: string)
    | PutTimer(id: string, expires: nat)
    | DropTimer(id: string)
    | Subscribe(channel: string)
    | SetWaiting(channel: string, wait: Wait)
    | ClearWaiting(channel: string)
    | CopyToArchive
    | ClearHistory
    | DropTimers
    | DropSubscriptions
    // transaction control
    | Begin
    | Commit
    | Rollback
    // no statement: a call of user code, and workflow code learning an outcome
    | Call(id: string)
    | See(id: string, outcome: Outcome)

  datatype Row = Row(
    status: Status,
    lock: Lock,
    output: string,
    history: seq<Event>,
    archive: seq<Event>,
    timers: map<string, nat>,
    subscriptions: map<string, Option<Wait>>,
    compensations: seq<Compensation>,
    nextCompensation: nat,
    userRows: seq<string>,
    tx: Option<seq<Action>>)

  /** A new instance, as CreateInstance leaves it: running and unlocked. */
  const FRESH: Row :=
    Row(Running, Unlocked, "", [], [], map[], map[], [], 1, [], None)

  predicate HasId(history: seq<Event>, id: string) {
    exists i :: 0 <= i < |history| && history[i].activityId == id
  }

  /** The UNIQUE (instance_id, activity_id) constraint. */
  predicate UniqueIds(history: seq<Event>) {
    forall i, j :: 0 <= i < j < |history| ==> history[i].activityId != history[j].activityId
  }

  /** INSERT ... ON CONFLICT (instance_id, activity_id) DO NOTHING. */
  function Appended(history: seq<Event>, e: Event): (h: seq<Event>)
    ensures history <= h
    ensures UniqueIds(history) ==> UniqueIds(h)
    ensures HasId(h, e.activityId)
  {
    if HasId(history, e.activityId) then history
    else
      var h := history + [e];
      assert h[|history|].activityId == e.activityId;
      h
  }

  lemma HasIdStays(history: seq<Event>, history': seq<Event>, id: string)
    requires history <= history' && HasId(history, id)
    ensures HasId(history', id)
  {
    var i :| 0 <= i < |history| && history[i].activityId == id;
    assert history'[i].activityId == id;
  }

  lemma AppendedIds(history: seq<Event>, e: Event, id: string)
    ensures HasId(Appended(history, e), id) <==> HasId(history, id) || e.activityId == id
  {
    if HasId(history, id) {
      HasIdStays(history, Appended(history, e), id);
    }
  }

  /** A statement outside any transaction. */
  function Write(r: Row, a: Action): Row {
    match a
    case Acquire(w, expires) => r.(lock := Locked(w, expires))
    case ReleaseBy(w) => r.(lock := Release(r.lock, w))
    case BreakLock => r.(lock := Unlocked)
    case SetStatus(s) => r.(status := s)
    case SetOutput(v) => r.(output := v, status := Completed)
    case Append(e) => r.(history := Appended(r.history, e))
    case AddCompensation(id, name, at) =>
      r.(compensations := r.compensations + [Compensation(r.nextCompensation, id, name, at)],
         nextCompensation := r.nextCompensation + 1)
    case UserWrite(id) => r.(userRows := r.userRows + [id])
    case PutTimer(id, expires) => if id in r.timers then r else r.(timers := r.timers[id := expires])
    case DropTimer(id) => r.(timers := r.timers - {id})
    case Subscribe(c) =>
      if c in r.subscriptions then r else r.(subscriptions := r.subscriptions[c := None])
    case SetWaiting(c, wait) =>
      if c in r.subscriptions then r.(subscriptions := r.subscriptions[c := Some(wait)]) else r
    case ClearWaiting(c) =>
      if c in r.subscriptions then r.(subscriptions := r.subscriptions[c := None]) else r
    case CopyToArchive => r.(archive := r.archive + r.history)
    case ClearHistory => r.(history := [])
    case DropTimers => r.(timers := map[])
    case DropSubscriptions => r.(subscriptions := map[])
    case _ => r
  }

  function WriteAll(r: Row, actions: seq<Action>): Row {
    if actions == [] then r
    else Write(WriteAll(r, actions[..|actions| - 1]), actions[|actions| - 1])
  }

  lemma WriteSnoc(r: Row, actions: seq<Action>, a: Action)
    ensures WriteAll(r, actions + [a]) == Write(WriteAll(r, actions), a)
  {
    assert (actions + [a])[..|actions|] == actions;
  }

  /** The statements an activity's transaction holds back until it commits. */
  predicate Buffered(a: Action) {
    a.Append? || a.AddCompensation? || a.UserWrite?
  }

  function Apply(r: Row, a: Action): Row {
    match a
    case Begin => r.(tx := Some([]))
    case Commit => if r.tx.Some? then WriteAll(r.(tx := None), r.tx.value) else r
    case Rollback => r.(tx := None)
    case _ =>
      if r.tx.Some? && Buffered(a) then r.(tx := Some(r.tx.value + [a])) else Write(r, a)
  }

  function ApplyAll(r: Row, actions: seq<Action>): Row {
    if actions == [] then r
    else Apply(ApplyAll(r, actions[..|actions| - 1]), actions[|actions| - 1])
  }

  /** The process dies: an open transaction is gone, the tables stay. */
  function Crash(r: Row): Row {
    r.(tx := None)
  }

  /** The tables after a step that performed its first `cut` actions and then died. */
  function After(r: Row, actions: seq<Action>, cut: nat): Row
    requires cut <= |actions|
  {
    Crash(ApplyAll(r, actions[..cut]))
  }

  lemma ApplySnoc(r: Row, actions: seq<Action>, a: Action)
    ensures ApplyAll(r, actions + [a]) == Apply(ApplyAll(r, actions), a)
  {
    hide Apply;
    assert (actions + [a])[..|actions|] == actions;
  }

  lemma {:induction false} ApplyConcat(r: Row, first: seq<Action>, second: seq<Action>)
    ensures ApplyAll(r, first + second) == ApplyAll(ApplyAll(r, first), second)
  {
    hide Apply;
    if second == [] {
      assert first + second == first;
    } else {
      var second' := second[..|second| - 1];
      ApplyConcat(r, first, second');
      assert first + second == (first + second') + [second[|second| - 1]];
      ApplySnoc(r, first + second', second[|second| - 1]);
    }
  }

  lemma ApplyCons(r: Row, a: Action, rest: seq<Action>)
    ensures ApplyAll(r, [a] + rest) == ApplyAll(Apply(r, a), rest)
  {
    hide Apply;
    ApplyConcat(r, [a], rest);
    ApplySnoc(r, [], a);
  }

  lemma ApplyPair(r: Row, a: Action, b: Action)
    ensures ApplyAll(r, [a]) == Apply(r, a)
    ensures ApplyAll(r, [a, b]) == Apply(Apply(r, a), b)
  {
    hide Apply;
    ApplySnoc(r, [], a);
    ApplySnoc(r, [a], b);
    assert [a] + [b] == [a, b];
  }

  /** A cut inside `first + second` falls in one of the two. */
  lemma CutConcat(r: Row, first: seq<Action>, second: seq<Action>, cut: nat)
    requires cut <= |first + second|
    ensures cut <= |first| ==> After(r, first + second, cut) == After(r, first, cut)
    ensures |first| <= cut ==>
              After(r, first + second, cut) == After(ApplyAll(r, first), second, cut - |first|)
  {
    hide Apply;
    if cut <= |first| {
      assert (first + second)[..cut] == first[..cut];
    }
    if |first| <= cut {
      assert (first + second)[..cut] == first + second[..cut - |first|];
      ApplyConcat(r, first, second[..cut - |first|]);
    }
  }

  lemma AfterNone(r: Row)
    requires r.tx.None?
    ensures After(r, [], 0) == r
  {
  }

  lemma ApplyNone(r: Row)
    ensures ApplyAll(r, []) == r
  {
  }

  // ---- Lists of single statements ----

  /** A statement of a handler: it opens and closes no transaction. */
  predicate Direct(a: Action) {
    !a.Begin? && !a.Commit? && !a.Rollback?
  }

  /** The first statement of a list, or none of it. */
  lemma Walk(r: Row, a: Action, rest: seq<Action>, cut: nat)
    requires r.tx.None? && Direct(a) && cut <= 1 + |rest|
    ensures After(r, [a] + rest, cut) == if cut == 0 then r else After(Write(r, a), rest, cut - 1)
    ensures Write(r, a).tx.None?
    ensures ApplyAll(r, [a] + rest) == ApplyAll(Write(r, a), rest)
  {
    hide ApplyAll;
    ApplyCons(r, a, rest);
    if cut > 0 {
      assert ([a] + rest)[..cut] == [a] + rest[..cut - 1];
      ApplyCons(r, a, rest[..cut - 1]);
    } else {
      ApplyNone(r);
    }
  }

  /** The rows a list of up to three statements can leave. */
  lemma WalkThree(r: Row, a: Action, b: Action, c: Action, cut: nat)
    requires r.tx.None? && Direct(a) && Direct(b) && Direct(c) && cut <= 3
    ensures var r1, r2, r3 := Write(r, a), Write(Write(r, a), b), Write(Write(Write(r, a), b), c);
            After(r, [a, b, c], cut) == if cut == 0 then r else if cut == 1 then r1 else if cut == 2 then r2 else r3
    ensures Write(Write(Write(r, a), b), c).tx.None?
  {
    hide ApplyAll, Write;
    var r1, r2 := Write(r, a), Write(Write(r, a), b);
    assert [a, b, c] == [a] + [b, c] && [b, c] == [b] + [c] && [c] == [c] + [];
    Walk(r, a, [b, c], cut);
    Walk(r1, b, [c], if cut < 1 then 0 else cut - 1);
    Walk(r2, c, [], if cut < 2 then 0 else cut - 2);
    ApplyNone(Write(r2, c));
  }

  lemma WalkTwo(r: Row, a: Action, b: Action, cut: nat)
    requires r.tx.None? && Direct(a) && Direct(b) && cut <= 2
    ensures After(r, [a, b], cut) == if cut == 0 then r else if cut == 1 then Write(r, a) else Write(Write(r, a), b)
    ensures Write(Write(r, a), b).tx.None? && ApplyAll(r, [a, b]) == Write(Write(r, a), b)
  {
    hide ApplyAll, Write;
    assert [a, b] == [a] + [b] && [b] == [b] + [];
    Walk(r, a, [b], cut);
    Walk(Write(r, a), b, [], if cut < 1 then 0 else cut - 1);
    ApplyNone(Write(Write(r, a), b));
  }

  lemma WalkFour(r: Row, a: Action, b: Action, c: Action, d: Action, cut: nat)
    requires r.tx.None? && Direct(a) && Direct(b) && Direct(c) && Direct(d) && cut <= 4
    ensures var r1, r2 := Write(r, a), Write(Write(r, a), b);
            var r3, r4 := Write(r2, c), Write(Write(r2, c), d);
            && After(r, [a, b, c, d], cut) ==
                 (if cut == 0 then r else if cut == 1 then r1 else if cut == 2 then r2 else if cut == 3 then r3 else r4)
            && r4.tx.None? && ApplyAll(r, [a, b, c, d]) == r4
  {
    hide ApplyAll, Write, After;
    WalkTwo(r, a, b, if cut < 2 then cut else 2);
    var r2 := Write(Write(r, a), b);
    WalkTwo(r2, c, d, if cut < 2 then 0 else cut - 2);
    assert [a, b, c, d] == [a, b] + [c, d];
    CutConcat(r, [a, b], [c, d], cut);
    ApplyConcat(r, [a, b], [c, d]);
  }

  lemma WritesNothing(r: Row, a: Action)
    requires a.Call? || a.See?
    ensures Write(r, a) == r
  {
  }

  /** Statements that leave the status alone, each on its own. */
  predicate KeepsStatus(actions: seq<Action>) {
    forall a :: a in actions ==> Direct(a) && !a.SetStatus? && !a.SetOutput?
  }

  lemma {:induction false} DirectApplied(r: Row, actions: seq<Action>)
    requires r.tx.None? && KeepsStatus(actions)
    ensures ApplyAll(r, actions).tx.None? && ApplyAll(r, actions).status == r.status
  {
    if actions != [] {
      assert actions[|actions| - 1] in actions;
      DirectApplied(r, actions[..|actions| - 1]);
    }
  }

  lemma DirectCut(r: Row, actions: seq<Action>, cut: nat)
    requires r.tx.None? && KeepsStatus(actions) && cut <= |actions|
    ensures After(r, actions, cut).status == r.status && After(r, actions, cut) == ApplyAll(r, actions[..cut])
    ensures ApplyAll(r, actions).tx.None? && ApplyAll(r, actions).status == r.status
  {
    hide ApplyAll;
    DirectApplied(r, actions);
    DirectApplied(r, actions[..cut]);
  }
}
