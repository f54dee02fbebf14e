/**
 * The SQLite storage: its tables, and its functions as methods that update them in place.
 * `Row(i)` is what the tables hold of instance i; every method is proved to do to it what the
 * corresponding action of the protocol does, and to leave every other instance alone.
 */
module Storage {
  import opened Prelude
  import opened ActivityIds
  import opened Clock
  import opened Locks
  import opened Tables
  import opened Workflows
  import opened Ordering
  import opened Saga
  import opened Machine

  datatype Result<+T> = Success(value: T) | Failure(error: string)

  /** A row of workflow_instances. */
  datatype Instance = Instance(status: Status, lock: Lock, output: string)

  /** A row of workflow_history. */
  datatype HistoryRow = HistoryRow(id: nat, event: Event)

  datatype Page = Page(events: seq<HistoryRow>, hasMore: bool)

  /** An open transaction: what it holds back, and what runs after it commits. */
  datatype Transaction = Transaction(instance: string, actions: seq<Action>, callbacks: seq<string>)

  datatype DueTimer = DueTimer(instance: string, id: string, expires: nat)

  datatype LateWait = LateWait(instance: string, channel: string, activityId: string, timeoutAt: nat)

  datatype Mode = Broadcast | Competing

  function Get<T>(table: map<string, T>, key: string, otherwise: T): T {
    if key in table then table[key] else otherwise
  }

  function Events(rows: seq<HistoryRow>): (events: seq<Event>)
    ensures |events| == |rows|
    ensures forall k :: 0 <= k < |rows| ==> events[k] == rows[k].event
  {
    seq(|rows|, k requires 0 <= k < |rows| => rows[k].event)
  }

  predicate Increasing(rows: seq<HistoryRow>, next: nat) {
    && (forall j, k :: 0 <= j < k < |rows| ==> rows[j].id < rows[k].id)
    && (forall k :: 0 <= k < |rows| ==> 0 < rows[k].id < next)
  }

  /** The rows of one instance, in id order; no activity id stands in two of them. */
  predicate Sound(rows: seq<HistoryRow>, next: nat) {
    Increasing(rows, next) && UniqueIds(Events(rows))
  }

  lemma SoundGrows(rows: seq<HistoryRow>, next: nat, event: Event)
    requires Sound(rows, next) && next > 0
    ensures Sound(rows, next + 1)
    ensures Events(rows + [HistoryRow(next, event)]) == Events(rows) + [event]
    ensures !HasId(Events(rows), event.activityId) ==> Sound(rows + [HistoryRow(next, event)], next + 1)
  {
    assert Events(rows + [HistoryRow(next, event)]) == Events(rows) + [event];
  }

  lemma NothingSound(next: nat)
    ensures Sound([], next)
  {
  }

  /** The entries of one instance, in id order. */
  predicate Numbered(entries: seq<Compensation>, next: nat) {
    && (forall j, k :: 0 <= j < k < |entries| ==> entries[j].id < entries[k].id)
    && (forall k :: 0 <= k < |entries| ==> entries[k].id < next)
  }

  lemma NumberedGrows(entries: seq<Compensation>, next: nat, entry: Compensation)
    requires Numbered(entries, next)
    ensures Numbered(entries, next + 1)
    ensures entry.id == next ==> Numbered(entries + [entry], next + 1)
  {
  }

  lemma RenumberedAll(tables: map<string, seq<Compensation>>, next: nat, i: string, entry: Compensation)
    requires (forall j :: j in tables ==> Numbered(tables[j], next)) && entry.id == next
    ensures forall j :: j in tables ==> Numbered(tables[j], next + 1)
    ensures Numbered(Get(tables, i, []) + [entry], next + 1)
  {
    NumberedGrows(Get(tables, i, []), next, entry);
    forall j | j in tables ensures Numbered(tables[j], next + 1) {
      NumberedGrows(tables[j], next, entry);
    }
  }

  lemma LifoIsSorted(entries: seq<Compensation>, next: nat)
    requires Numbered(entries, next)
    ensures Sorted(Lifo(entries), Later) && multiset(Lifo(entries)) == multiset(entries)
  {
    SortSorts(entries, Later);
  }

  /** There is one list of the entries in that order. */
  lemma SortedIsLifo(entries: seq<Compensation>, table: seq<Compensation>, next: nat)
    requires Numbered(table, next) && Sorted(entries, Later) && multiset(entries) == multiset(table)
    ensures entries == Lifo(table)
  {
    LifoIsSorted(table, next);
    SortedUnique(entries, Lifo(table), Later);
  }

  /** WHERE id > after ORDER BY id. */
  function Beyond(rows: seq<HistoryRow>, after: nat): (rest: seq<HistoryRow>)
    ensures |rest| <= |rows|
  {
    if rows == [] then []
    else if rows[0].id > after then rows
    else Beyond(rows[1..], after)
  }

  lemma {:induction false} BeyondIsSuffix(rows: seq<HistoryRow>, after: nat, next: nat)
    requires Increasing(rows, next)
    ensures var n := |rows| - |Beyond(rows, after)|;
            && Beyond(rows, after) == rows[n..]
            && (forall k :: 0 <= k < n ==> rows[k].id <= after)
            && (forall k :: n <= k < |rows| ==> rows[k].id > after)
  {
    if rows != [] && rows[0].id <= after {
      BeyondIsSuffix(rows[1..], after, next);
      var n := |rows[1..]| - |Beyond(rows[1..], after)|;
      assert rows[1..][n..] == rows[n + 1..];
    }
  }

  /** The page GetHistoryPaginated is to return: the first `limit` events beyond `after`. */
  function PageOf(rows: seq<HistoryRow>, after: nat, limit: nat): Page {
    var rest := Beyond(rows, after);
    if |rest| > limit then Page(rest[..limit], true) else Page(rest, false)
  }

  /**
   * A page holds the first rows beyond an id, in their order, at most so many; and it says that there
   * are more exactly if it leaves one out.
   */
  ghost predicate IsPage(rows: seq<HistoryRow>, after: nat, limit: nat, page: Page) {
    && |page.events| <= limit
    && (forall k :: 0 <= k < |page.events| ==> page.events[k] in rows && page.events[k].id > after)
    && (forall j, k :: 0 <= j < k < |page.events| ==> page.events[j].id < page.events[k].id)
    && (forall row :: row in rows && row.id > after && row !in page.events ==>
          |page.events| == limit && forall k :: 0 <= k < |page.events| ==> page.events[k].id < row.id)
    && (page.hasMore <==> exists row :: row in rows && row.id > after && row !in page.events)
  }

  lemma PageIsPage(rows: seq<HistoryRow>, after: nat, limit: nat, next: nat)
    requires Increasing(rows, next)
    ensures IsPage(rows, after, limit, PageOf(rows, after, limit))
  {
    hide Beyond;
    BeyondExactly(rows, after, next);
    var rest := Beyond(rows, after);
    if |rest| > limit {
      FirstOfRest(rest, limit);
    }
  }

  /** The rest are exactly the rows beyond the id, in their order. */
  lemma BeyondExactly(rows: seq<HistoryRow>, after: nat, next: nat)
    requires Increasing(rows, next)
    ensures var rest := Beyond(rows, after);
            && (forall row :: row in rest <==> row in rows && row.id > after)
            && (forall j, k :: 0 <= j < k < |rest| ==> rest[j].id < rest[k].id)
  {
    hide Beyond;
    BeyondIsSuffix(rows, after, next);
    var rest := Beyond(rows, after);
    var n := |rows| - |rest|;
    forall row | row in rows && row.id > after ensures row in rest {
      var k :| 0 <= k < |rows| && rows[k] == row;
      assert row == rest[k - n];
    }
  }

  lemma AmongFirst(rows: seq<HistoryRow>, n: nat, k: nat)
    requires n <= |rows| && k < |rows|
    ensures k < n ==> rows[k] in rows[..n]
  {
    if k < n {
      assert rows[..n][k] == rows[k];
    }
  }

  /** What the first rows of an increasing list leave out lies behind them. */
  lemma FirstOfRest(rest: seq<HistoryRow>, limit: nat)
    requires limit < |rest| && forall j, k :: 0 <= j < k < |rest| ==> rest[j].id < rest[k].id
    ensures rest[limit] !in rest[..limit] && rest[limit] in rest
    ensures forall row :: row in rest && row !in rest[..limit] ==> forall k :: 0 <= k < limit ==> rest[k].id < row.id
  {
    forall row | row in rest && row !in rest[..limit] ensures forall k :: 0 <= k < limit ==> rest[k].id < row.id {
      var j :| 0 <= j < |rest| && rest[j] == row;
      AmongFirst(rest, limit, j);
    }
  }

  class SqliteStorage {
    var instances: map<string, Instance>
    var history: map<string, seq<HistoryRow>>
    var nextHistory: nat
    var archive: map<string, seq<Event>>
    var timers: map<string, map<string, nat>>
    var subscriptions: map<string, map<string, Option<Wait>>>
    var modes: map<string, map<string, Mode>>
    var cursors: map<string, map<string, nat>>
    var groups: map<string, set<string>>
    var newest: map<string, nat>       // the greatest message id of every channel
    var compensations: map<string, seq<Compensation>>
    var nextCompensation: nat
    var userRows: map<string, seq<string>>
    var tx: Option<Transaction>
    var ran: seq<string>               // the post-commit callbacks that have run

    ghost predicate Valid()
      reads this
    {
      && nextHistory > 0
      && (forall i :: i in history ==> Sound(history[i], nextHistory))
      && (forall i :: i in compensations ==> Numbered(compensations[i], nextCompensation))
      && (tx.Some? ==> forall k :: 0 <= k < |tx.value.actions| ==> Buffered(tx.value.actions[k]))
    }

    /** What the tables hold of an instance. */
    ghost function Row(i: string): (r: Row)
      ensures r.nextCompensation == nextCompensation
      reads this`instances, this`history, this`archive, this`timers, this`subscriptions, this`compensations
      reads this`nextCompensation, this`userRows, this`tx
    {
      var inst := Get(instances, i, Instance(Running, Unlocked, ""));
      Tables.Row(inst.status, inst.lock, inst.output, Events(Get(history, i, [])), Get(archive, i, []),
        Get(timers, i, map[]), Get(subscriptions, i, map[]), Get(compensations, i, []), nextCompensation,
        Get(userRows, i, []), if tx.Some? && tx.value.instance == i then Some(tx.value.actions) else None)
    }

    /** Everything of every instance but i is as it was. */
    twostate predicate Touches(i: string)
      reads this
    {
      && nextHistory >= old(nextHistory)
      && (forall j :: j in old(instances) <==> j in instances)
      && forall j :: j != i ==> Row(j) == old(Row(j)).(nextCompensation := nextCompensation)
    }

    constructor ()
      ensures Valid() && instances == map[] && history == map[] && tx == None
    {
      instances, history, archive, timers, subscriptions, compensations, userRows :=
        map[], map[], map[], map[], map[], map[], map[];
      modes, cursors, groups, newest := map[], map[], map[], map[];
      nextHistory, nextCompensation := 1, 1;
      tx := None;
      ran := [];
    }

    // ---- Locks and statuses ----

    method TryAcquireLock(i: string, worker: string, timeout: nat, clock: nat, now: nat) returns (acquired: bool)
      requires Valid()
      modifies this`instances
      ensures Valid() && Touches(i) && ran == old(ran)
      ensures acquired == (i in instances && Available(old(Row(i)).lock, worker, now))
      ensures Row(i) == if acquired then Apply(old(Row(i)), Acquire(worker, Seconds(clock + timeout * SECOND)))
                        else old(Row(i))
    {
      acquired := i in instances && Available(instances[i].lock, worker, now);
      if acquired {
        instances := instances[i := instances[i].(lock := Granted(worker, clock, timeout))];
      }
    }

    method ReleaseLock(i: string, worker: string)
      requires Valid()
      modifies this`instances
      ensures Valid() && Touches(i) && ran == old(ran)
      ensures i in instances ==> Row(i) == Apply(old(Row(i)), ReleaseBy(worker))
      ensures i !in instances ==> Row(i) == old(Row(i))
    {
      if i in instances && instances[i].lock.Locked? && instances[i].lock.owner == worker {
        instances := instances[i := instances[i].(lock := Unlocked)];
      }
    }

    method UpdateInstanceStatus(i: string, status: Status)
      requires Valid()
      modifies this`instances
      ensures Valid() && Touches(i) && ran == old(ran)
      ensures i in instances ==> Row(i) == Apply(old(Row(i)), SetStatus(status))
      ensures i !in instances ==> Row(i) == old(Row(i))
    {
      if i in instances {
        instances := instances[i := instances[i].(status := status)];
      }
    }

    method UpdateInstanceOutput(i: string, output: string)
      requires Valid()
      modifies this`instances
      ensures Valid() && Touches(i) && ran == old(ran)
      ensures i in instances ==> Row(i) == Apply(old(Row(i)), SetOutput(output))
      ensures i !in instances ==> Row(i) == old(Row(i))
    {
      if i in instances {
        instances := instances[i := instances[i].(output := output, status := Completed)];
      }
    }

    /** Fails for an instance that does not exist or has ended. */
    method CancelInstance(i: string) returns (cancelled: bool)
      requires Valid()
      modifies this`instances
      ensures Valid() && Touches(i) && ran == old(ran)
      ensures cancelled == (i in instances && !Terminal(old(Row(i)).status))
      ensures Row(i) == if cancelled then Apply(old(Row(i)), SetStatus(Cancelled)) else old(Row(i))
    {
      cancelled := i in instances && !Terminal(instances[i].status);
      if cancelled {
        instances := instances[i := instances[i].(status := Cancelled)];
      }
    }

    // ---- History ----

    method AppendHistory(i: string, event: Event)
      requires Valid()
      modifies this`history, this`nextHistory, this`tx
      ensures Valid() && Touches(i) && ran == old(ran)
      ensures old(tx.None? || tx.value.instance == i) ==> Row(i) == Apply(old(Row(i)), Append(event))
      ensures tx.None? == old(tx.None?) && (tx.Some? ==> tx.value.instance == old(tx.value.instance))
    {
      if tx.Some? && tx.value.instance == i {
        tx := Some(tx.value.(actions := tx.value.actions + [Append(event)]));
      } else {
        Insert(i, event);
      }
    }

    /** INSERT ... ON CONFLICT DO NOTHING. */
    method Insert(i: string, event: Event)
      requires Valid()
      modifies this`history, this`nextHistory
      ensures Valid() && Touches(i) && ran == old(ran)
      ensures Row(i) == Write(old(Row(i)), Append(event))
    {
      hide HasId, Sound;
      var rows := Get(history, i, []);
      NothingSound(nextHistory);
      forall j | j in history || j == i
        ensures Sound(Get(history, j, []), nextHistory + 1)
      {
        SoundGrows(Get(history, j, []), nextHistory, event);
      }
      SoundGrows(rows, nextHistory, event);
      if !HasId(Events(rows), event.activityId) {
        history := history[i := rows + [HistoryRow(nextHistory, event)]];
        nextHistory := nextHistory + 1;
      }
    }

    /** One page, or the error of the query: `reads` says whether the database answers. */
    method GetHistoryPaginated(i: string, after: nat, limit: nat, answers: bool) returns (r: Result<Page>)
      requires Valid() && limit > 0
      ensures r == if answers then Success(PageOf(Get(history, i, []), after, limit)) else Failure("query failed")
      ensures r.Success? ==> IsPage(Get(history, i, []), after, limit, r.value)
    {
      hide Beyond, PageOf;
      if !answers {
        return Failure("query failed");
      }
      var rows := Get(history, i, []);
      assert Increasing(rows, nextHistory);
      var found: seq<HistoryRow>, k := [], 0;
      assert rows[0..] == rows;
      while k < |rows| && |found| < limit + 1
        invariant 0 <= k <= |rows| && |found| <= limit + 1
        invariant found + Beyond(rows[k..], after) == Beyond(rows, after)
      {
        BeyondStep(rows, k, after, nextHistory);
        if rows[k].id > after {
          found := found + [rows[k]];
        }
        k := k + 1;
      }
      PageFound(rows, k, found, after, limit);
      PageIsPage(rows, after, limit, nextHistory);
      var hasMore := |found| > limit;
      if hasMore {
        found := found[..limit];
      }
      r := Success(Page(found, hasMore));
    }

    // ---- Timers ----

    method RegisterTimerSubscription(i: string, id: string, expiresAt: nat)
      requires Valid()
      modifies this`timers
      ensures Valid() && Touches(i) && ran == old(ran)
      ensures Row(i) == Apply(old(Row(i)), PutTimer(id, Seconds(expiresAt)))
    {
      hide Sound, Numbered;
      var table := Get(timers, i, map[]);
      if id !in table {
        timers := timers[i := table[id := Seconds(expiresAt)]];
      }
    }

    method RemoveTimerSubscription(i: string, id: string)
      requires Valid()
      modifies this`timers
      ensures Valid() && Touches(i) && ran == old(ran)
      ensures Row(i) == Apply(old(Row(i)), DropTimer(id))
    {
      hide Sound, Numbered;
      timers := timers[i := Get(timers, i, map[]) - {id}];
    }

    /** The due timers, the earliest first, up to the limit; a limit of zero means 100. */
    method FindExpiredTimers(now: nat, limit: nat) returns (due: seq<DueTimer>)
      ensures |due| <= (if limit == 0 then 100 else limit)
      ensures forall t :: t in due ==> IsDue(t, now)
      ensures forall t: DueTimer :: t.instance in instances ==>
                (IsDue(t, now) <==>
                   t.id in Row(t.instance).timers && Row(t.instance).timers[t.id] == t.expires <= now / 1_000_000_000)
      ensures forall j, k :: 0 <= j < k < |due| ==> due[j] != due[k] && due[j].expires <= due[k].expires
      ensures forall t :: IsDue(t, now) && t !in due ==>
                |due| == (if limit == 0 then 100 else limit) && forall k :: 0 <= k < |due| ==> due[k].expires <= t.expires
    {
      var candidates := set i, id | i in timers && id in timers[i] && i in instances
                                    && timers[i][id] <= Seconds(now) :: DueTimer(i, id, timers[i][id]);
      due := EarliestFirst(candidates, (t: DueTimer) => t.expires, Effective(limit));
    }

    predicate IsDue(t: DueTimer, now: nat)
      reads this
    {
      && t.instance in timers && t.id in timers[t.instance] && t.instance in instances
      && timers[t.instance][t.id] == t.expires && t.expires <= Seconds(now)
    }

    // ---- Compensations ----

    method AddCompensation(i: string, activityId: string, activityName: string, clock: nat)
      requires Valid()
      modifies this`compensations, this`nextCompensation, this`tx
      ensures Valid() && Touches(i) && ran == old(ran)
      ensures old(tx.None? || tx.value.instance == i) ==>
                Row(i) == Apply(old(Row(i)), Action.AddCompensation(activityId, activityName, Millis(clock)))
      ensures tx.None? == old(tx.None?) && (tx.Some? ==> tx.value.instance == old(tx.value.instance))
    {
      var a := Action.AddCompensation(activityId, activityName, Millis(clock));
      if tx.Some? && tx.value.instance == i {
        tx := Some(tx.value.(actions := tx.value.actions + [a]));
      } else {
        InsertCompensation(i, a);
      }
    }

    method InsertCompensation(i: string, a: Action)
      requires Valid() && a.AddCompensation?
      modifies this`compensations, this`nextCompensation
      ensures Valid() && Touches(i) && ran == old(ran)
      ensures Row(i) == Write(old(Row(i)), a)
    {
      hide Numbered, Sound;
      var entry := Compensation(nextCompensation, a.activityId, a.activityName, a.createdAt);
      RenumberedAll(compensations, nextCompensation, i, entry);
      compensations := compensations[i := Get(compensations, i, []) + [entry]];
      nextCompensation := nextCompensation + 1;
    }

    /** ORDER BY created_at DESC, id DESC: every entry once, each before all that are older. */
    method GetCompensations(i: string) returns (entries: seq<Compensation>)
      requires Valid()
      ensures Sorted(entries, Later) && multiset(entries) == multiset(Row(i).compensations)
      ensures Numbered(Row(i).compensations, nextCompensation)
    {
      hide Sort;
      var table := Get(compensations, i, []);
      entries := Sort(table, Later);
      LifoIsSorted(table, nextCompensation);
    }

    // ---- What an activity's own statements write ----

    method ExecUserStatement(i: string, id: string)
      requires Valid()
      modifies this`userRows, this`tx
      ensures Valid() && Touches(i) && ran == old(ran)
      ensures old(tx.None? || tx.value.instance == i) ==> Row(i) == Apply(old(Row(i)), Action.UserWrite(id))
      ensures tx.None? == old(tx.None?) && (tx.Some? ==> tx.value.instance == old(tx.value.instance))
    {
      hide Sound, Numbered;
      if tx.Some? && tx.value.instance == i {
        tx := Some(tx.value.(actions := tx.value.actions + [Action.UserWrite(id)]));
      } else {
        userRows := userRows[i := Get(userRows, i, []) + [id]];
      }
    }

    // ---- Channels: the waiting columns of subscriptions ----

    predicate Broadcasts(i: string, channel: string)
      reads this`modes
    {
      i in modes && channel in modes[i] && modes[i][channel].Broadcast?
    }

    /**
     * A repeated subscription changes its mode only.  A broadcast subscription starts a cursor at
     * the newest message of the channel, unless the instance has one.
     */
    method SubscribeToChannel(i: string, channel: string, mode: Mode)
      requires Valid()
      modifies this`subscriptions, this`modes, this`cursors
      ensures Valid() && Touches(i) && ran == old(ran)
      ensures Row(i) == Apply(old(Row(i)), Action.Subscribe(channel))
      ensures Broadcasts(i, channel) == mode.Broadcast?
      ensures Get(cursors, i, map[]) ==
              if mode.Broadcast? && channel !in old(Get(cursors, i, map[]))
              then old(Get(cursors, i, map[]))[channel := Get(newest, channel, 0)] else old(Get(cursors, i, map[]))
      ensures forall j :: j != i ==> Get(cursors, j, map[]) == old(Get(cursors, j, map[]))
    {
      hide Row, Apply, Valid;
      InsertSubscription(i, channel);
      SetMode(i, channel, mode);
      if mode.Broadcast? {
        StartCursor(i, channel, Get(newest, channel, 0));
      }
    }

    method SetMode(i: string, channel: string, mode: Mode)
      requires Valid()
      modifies this`modes
      ensures Valid() && Broadcasts(i, channel) == mode.Broadcast?
    {
      hide Sound, Numbered;
      modes := modes[i := Get(modes, i, map[])[channel := mode]];
    }

    /** ON CONFLICT DO NOTHING: a cursor that is there stays. */
    method StartCursor(i: string, channel: string, last: nat)
      requires Valid()
      modifies this`cursors
      ensures Valid()
      ensures Get(cursors, i, map[]) ==
              if channel in old(Get(cursors, i, map[])) then old(Get(cursors, i, map[]))
              else old(Get(cursors, i, map[]))[channel := last]
      ensures forall j :: j != i ==> Get(cursors, j, map[]) == old(Get(cursors, j, map[]))
    {
      if channel !in Get(cursors, i, map[]) {
        cursors := cursors[i := Get(cursors, i, map[])[channel := last]];
      }
    }

    method InsertSubscription(i: string, channel: string)
      requires Valid()
      modifies this`subscriptions
      ensures Valid() && Touches(i) && ran == old(ran)
      ensures Row(i) == Apply(old(Row(i)), Action.Subscribe(channel))
    {
      hide Sound, Numbered;
      var table := Get(subscriptions, i, map[]);
      if channel !in table {
        subscriptions := subscriptions[i := table[channel := None]];
      }
    }

    method ClearChannelWaitingState(i: string, channel: string)
      requires Valid()
      modifies this`subscriptions
      ensures Valid() && Touches(i) && ran == old(ran)
      ensures Row(i) == Apply(old(Row(i)), ClearWaiting(channel))
    {
      hide Sound, Numbered;
      var table := Get(subscriptions, i, map[]);
      if channel in table {
        subscriptions := subscriptions[i := table[channel := None]];
      }
    }

    method SetWaitingState(i: string, channel: string, activityId: string, timeoutAt: Option<nat>)
      requires Valid()
      modifies this`subscriptions
      ensures Valid() && Touches(i) && ran == old(ran)
      ensures Row(i) == Apply(old(Row(i)), SetWaiting(channel, Wait(activityId, StoredTimeout(timeoutAt))))
    {
      hide Numbered, Sound;
      var table := Get(subscriptions, i, map[]);
      if channel in table {
        subscriptions := subscriptions[i := table[channel := Some(Wait(activityId, StoredTimeout(timeoutAt)))]];
      }
    }

    method RegisterChannelReceiveAndReleaseLock(
      i: string, channel: string, worker: string, activityId: string, timeoutAt: Option<nat>)
      requires Valid() && i in instances
      modifies this`subscriptions, this`instances
      ensures Valid() && Touches(i) && ran == old(ran)
      ensures Row(i) == ApplyAll(old(Row(i)),
                [SetWaiting(channel, Wait(activityId, StoredTimeout(timeoutAt))), SetStatus(WaitingForMessage),
                 ReleaseBy(worker)])
    {
      hide Apply, ApplyAll;
      SetWaitingState(i, channel, activityId, timeoutAt);
      UpdateInstanceStatus(i, WaitingForMessage);
      ReleaseLock(i, worker);
      ApplyThree(old(Row(i)), SetWaiting(channel, Wait(activityId, StoredTimeout(timeoutAt))),
        SetStatus(WaitingForMessage), ReleaseBy(worker));
    }

    /** The waiting subscribers of a channel, as instance ids. */
    method GetChannelSubscribersWaiting(channel: string) returns (waiting: seq<string>)
      ensures forall i :: i in waiting <==>
                && i in subscriptions && channel in subscriptions[i] && subscriptions[i][channel].Some?
                && subscriptions[i][channel].value.activityId != ""
    {
      var all := set i | i in subscriptions && Waits(i, channel);
      waiting := AtMost(all, |all|);
    }

    predicate Waits(i: string, channel: string)
      requires i in subscriptions
      reads this`subscriptions
    {
      && channel in subscriptions[i] && subscriptions[i][channel].Some?
      && subscriptions[i][channel].value.activityId != ""
    }

    /**
     * Lock first, then record, stop waiting, set running, release.  It gives up, and releases,
     * if the instance has no subscription or the id is recorded already.
     */
    method DeliverChannelMessageWithLock(
      i: string, channel: string, message: nat, text: string, worker: string, timeout: nat, clock: nat, now: nat)
      returns (delivered: Option<string>)
      requires Valid() && (tx.Some? ==> tx.value.instance != i)
      modifies this`subscriptions, this`instances, this`history, this`nextHistory, this`cursors
      ensures Valid() && Touches(i) && ran == old(ran)
      ensures i !in instances ==> delivered == None && Row(i) == old(Row(i))
      ensures i in instances ==>
                var r, step := old(Row(i)), Delivering(worker, Seconds(clock + timeout * SECOND), channel, message, text);
                && Row(i) == ApplyAll(r, HandlerActions(r, now, step))
                && delivered == if ActsOn(r, now, step) && !Refused(r, channel, message)
                                then Some(DeliveryId(r, channel, message)) else None
      ensures Get(cursors, i, map[]) ==
              if delivered.Some? && Broadcasts(i, channel) then old(Get(cursors, i, map[]))[channel := message]
              else old(Get(cursors, i, map[]))
      ensures forall j :: j != i ==> Get(cursors, j, map[]) == old(Get(cursors, j, map[]))
    {
      hide Apply, ApplyAll, HasId, Refused, DeliveryId, Row, Valid;
      ghost var r, expires := Row(i), Seconds(clock + timeout * SECOND);
      var acquired := TryAcquireLock(i, worker, timeout, clock, now);
      ApplyNone(r);
      if !acquired {
        return None;
      }
      AcquiredOnly(r, worker, expires, channel, message);
      delivered := DeliverLocked(i, channel, message, text, worker);
      if delivered.None? {
        ApplyPair(r, Acquire(worker, expires), ReleaseBy(worker));
      } else {
        ghost var rest := [Append(DeliveryEvent(r, channel, message, text)), ClearWaiting(channel), SetStatus(Running),
                           ReleaseBy(worker)];
        ApplyCons(r, Acquire(worker, expires), rest);
        assert [Acquire(worker, expires)] + rest ==
               AnswerActions(worker, expires, DeliveryEvent(r, channel, message, text), channel);
      }
    }

    /** The part of a delivery that holds the lock: record, move the cursor, wake up. */
    method DeliverLocked(i: string, channel: string, message: nat, text: string, worker: string)
      returns (delivered: Option<string>)
      requires Valid() && (tx.Some? ==> tx.value.instance != i) && i in instances
      modifies this`subscriptions, this`instances, this`history, this`nextHistory, this`cursors
      ensures Valid() && Touches(i) && ran == old(ran)
      ensures var r := old(Row(i));
              if Refused(r, channel, message) then delivered == None && Row(i) == Apply(r, ReleaseBy(worker))
              else
                && delivered == Some(DeliveryId(r, channel, message))
                && Row(i) == ApplyAll(r,
                     [Append(DeliveryEvent(r, channel, message, text)), ClearWaiting(channel), SetStatus(Running),
                      ReleaseBy(worker)])
      ensures Get(cursors, i, map[]) ==
              if delivered.Some? && Broadcasts(i, channel) then old(Get(cursors, i, map[]))[channel := message]
              else old(Get(cursors, i, map[]))
      ensures forall j :: j != i ==> Get(cursors, j, map[]) == old(Get(cursors, j, map[]))
    {
      hide Apply, ApplyAll, HasId, DeliveryId, Row, Valid;
      ghost var r := Row(i);
      delivered := DeliveryTarget(i, channel, message);
      if delivered.None? {
        ReleaseLock(i, worker);
      } else {
        var event := Event(delivered.value, ChannelMessageReceived, Json(text));
        InsertOutside(i, event);
        MoveCursor(i, channel, message);
        WakeUp(i, channel, worker);
        ghost var rest := [ClearWaiting(channel), SetStatus(Running), ReleaseBy(worker)];
        ApplyCons(r, Append(event), rest);
        assert [Append(event)] + rest ==
               [Append(event), ClearWaiting(channel), SetStatus(Running), ReleaseBy(worker)];
      }
    }

    /** Only a broadcast subscription has a cursor to move. */
    method MoveCursor(i: string, channel: string, message: nat)
      requires Valid()
      modifies this`cursors
      ensures Valid()
      ensures Get(cursors, i, map[]) == if Broadcasts(i, channel) then old(Get(cursors, i, map[]))[channel := message]
                                        else old(Get(cursors, i, map[]))
      ensures forall j :: j != i ==> Get(cursors, j, map[]) == old(Get(cursors, j, map[]))
    {
      hide Valid;
      if Broadcasts(i, channel) {
        UpdateDeliveryCursor(i, channel, message);
      }
    }

    method UpdateDeliveryCursor(i: string, channel: string, message: nat)
      requires Valid()
      modifies this`cursors
      ensures Valid()
      ensures Get(cursors, i, map[]) == old(Get(cursors, i, map[]))[channel := message]
      ensures forall j :: j != i ==> Get(cursors, j, map[]) == old(Get(cursors, j, map[]))
    {
      cursors := cursors[i := Get(cursors, i, map[])[channel := message]];
    }

    /** Where a message for the instance is recorded, unless it cannot be. */
    method DeliveryTarget(i: string, channel: string, message: nat) returns (id: Option<string>)
      ensures id == if Refused(Row(i), channel, message) then None else Some(DeliveryId(Row(i), channel, message))
    {
      hide HasId;
      var table := Get(subscriptions, i, map[]);
      if channel !in table {
        return None;
      }
      var wait := table[channel];
      var target := if wait.Some? && wait.value.activityId != "" then wait.value.activityId
                    else Render("channel:" + channel, message);
      id := if HasId(Events(Get(history, i, [])), target) then None else Some(target);
    }

    /** Stop waiting, set running, release: how deliveries and timeouts end. */
    method WakeUp(i: string, channel: string, worker: string)
      requires Valid() && i in instances
      modifies this`subscriptions, this`instances
      ensures Valid() && Touches(i) && ran == old(ran)
      ensures Row(i) == ApplyAll(old(Row(i)), [ClearWaiting(channel), SetStatus(Running), ReleaseBy(worker)])
    {
      hide Apply, ApplyAll;
      ClearChannelWaitingState(i, channel);
      UpdateInstanceStatus(i, Running);
      ReleaseLock(i, worker);
      ApplyThree(old(Row(i)), ClearWaiting(channel), SetStatus(Running), ReleaseBy(worker));
    }

    method InsertOutside(i: string, event: Event)
      requires Valid() && (tx.Some? ==> tx.value.instance != i)
      modifies this`history, this`nextHistory
      ensures Valid() && Touches(i) && ran == old(ran)
      ensures Row(i) == Apply(old(Row(i)), Append(event))
    {
      hide Write;
      Insert(i, event);
    }

    // ---- Archive ----

    method ArchiveHistory(i: string)
      requires Valid()
      modifies this`archive, this`history
      ensures Valid() && Touches(i) && ran == old(ran)
      ensures Row(i) == ApplyAll(old(Row(i)), [CopyToArchive, ClearHistory])
    {
      hide Apply, ApplyAll, Sound;
      Archived(Row(i));
      NothingSound(nextHistory);
      archive := archive[i := Get(archive, i, []) + Events(Get(history, i, []))];
      history := history[i := []];
    }

    /** Timers, subscriptions and group memberships go; the delivery cursors stay. */
    method CleanupInstanceSubscriptions(i: string)
      requires Valid()
      modifies this`timers, this`subscriptions, this`modes, this`groups
      ensures Valid() && Touches(i) && ran == old(ran)
      ensures modes == old(modes)[i := map[]] && groups == old(groups)[i := {}]
      ensures Row(i) == ApplyAll(old(Row(i)), [DropTimers, DropSubscriptions])
    {
      hide Apply, ApplyAll, Row, Valid;
      ghost var r := Row(i);
      DeleteTimers(i);
      DeleteSubscriptions(i);
      DeleteMemberships(i);
      ApplyPair(r, DropTimers, DropSubscriptions);
    }

    /** The modes go with the subscriptions. */
    method DeleteMemberships(i: string)
      requires Valid()
      modifies this`modes, this`groups
      ensures Valid() && modes == old(modes)[i := map[]] && groups == old(groups)[i := {}]
    {
      hide Sound, Numbered;
      modes, groups := modes[i := map[]], groups[i := {}];
    }

    method DeleteTimers(i: string)
      requires Valid()
      modifies this`timers
      ensures Valid() && Touches(i) && ran == old(ran)
      ensures Row(i) == Apply(old(Row(i)), DropTimers)
    {
      hide Sound, Numbered, Apply;
      Untimed(Row(i));
      timers := timers[i := map[]];
    }

    method DeleteSubscriptions(i: string)
      requires Valid()
      modifies this`subscriptions
      ensures Valid() && Touches(i) && ran == old(ran)
      ensures Row(i) == Apply(old(Row(i)), DropSubscriptions)
    {
      hide Sound, Numbered, Apply;
      Unwaiting(Row(i));
      subscriptions := subscriptions[i := map[]];
    }

    // ---- What the background tasks look for ----

    /** Clears every expired lock, and lists up to 100 of the instances that are to be resumed. */
    method CleanupStaleLocks(now: nat) returns (stale: seq<string>)
      requires Valid()
      modifies this`instances
      ensures Valid() && ran == old(ran) && instances.Keys == old(instances.Keys)
      ensures forall i :: i in instances ==>
                Row(i) == if Expired(old(Row(i)).lock, now) then Apply(old(Row(i)), BreakLock) else old(Row(i))
      ensures |stale| <= 100 && forall i :: i in stale ==> old(i in instances && IsStale(i, now))
      ensures |stale| < 100 ==> forall i :: old(i in instances && IsStale(i, now)) ==> i in stale
    {
      hide Apply;
      var found := set i | i in instances && IsStale(i, now);
      stale := AtMost(found, 100);
      BreakExpiredLocks(now);
    }

    method BreakExpiredLocks(now: nat)
      requires Valid()
      modifies this`instances
      ensures Valid() && instances.Keys == old(instances.Keys)
      ensures forall i :: i in instances ==>
                Row(i) == if Expired(old(Row(i)).lock, now) then Apply(old(Row(i)), BreakLock) else old(Row(i))
    {
      hide Apply;
      ghost var rows := map i | i in instances :: Row(i);
      instances := map i | i in instances ::
        if Expired(instances[i].lock, now) then instances[i].(lock := Unlocked) else instances[i];
      forall i | i in instances
        ensures Row(i) == if Expired(rows[i].lock, now) then Apply(rows[i], BreakLock) else rows[i]
      {
        LockBroken(rows[i]);
      }
    }

    predicate IsStale(i: string, now: nat)
      requires i in instances
      reads this`instances
    {
      Expired(instances[i].lock, now) && Resumable(instances[i].status)
    }

    /** No worker is named as the owner of the lock. */
    predicate Unowned(l: Lock) {
      l.Unlocked? || l.owner == ""
    }

    /** Running instances nobody holds, up to the limit; a limit of zero means 100. */
    method FindResumableWorkflows(limit: nat) returns (found: seq<string>)
      requires Valid()
      ensures |found| <= (if limit == 0 then 100 else limit)
      ensures forall i :: i in found ==>
                i in instances && Row(i).status.Running? && (Row(i).lock.Unlocked? || Row(i).lock.owner == "")
      ensures |found| < (if limit == 0 then 100 else limit) ==>
                forall i :: i in instances && Row(i).status.Running? && (Row(i).lock.Unlocked? || Row(i).lock.owner == "") ==>
                  i in found
    {
      var all := set i | i in instances && instances[i].status.Running? && Unowned(instances[i].lock);
      found := AtMost(all, Effective(limit));
    }

    predicate IsOverdue(l: LateWait, now: nat)
      reads this`subscriptions, this`instances
    {
      && l.instance in subscriptions && l.channel in subscriptions[l.instance] && l.instance in instances
      && subscriptions[l.instance][l.channel] == Some(Wait(l.activityId, Some(l.timeoutAt)))
      && l.activityId != "" && l.timeoutAt < Seconds(now)
    }

    /** The timed-out waits, the earliest first, up to the limit; a limit of zero means 100. */
    method FindExpiredChannelSubscriptions(now: nat, limit: nat) returns (late: seq<LateWait>)
      requires Valid()
      ensures |late| <= (if limit == 0 then 100 else limit)
      ensures forall l :: l in late ==> IsOverdue(l, now)
      ensures forall l: LateWait :: l.instance in instances ==>
                var table := Row(l.instance).subscriptions;
                (IsOverdue(l, now) <==>
                   && l.channel in table && table[l.channel] == Some(Wait(l.activityId, Some(l.timeoutAt)))
                   && l.activityId != "" && l.timeoutAt < now / 1_000_000_000)
      ensures forall j, k :: 0 <= j < k < |late| ==> late[j] != late[k] && late[j].timeoutAt <= late[k].timeoutAt
      ensures forall l :: IsOverdue(l, now) && l !in late ==>
                && |late| == (if limit == 0 then 100 else limit)
                && forall k :: 0 <= k < |late| ==> late[k].timeoutAt <= l.timeoutAt
    {
      var all := set i, ch | i in subscriptions && ch in subscriptions[i] && i in instances
                             && subscriptions[i][ch].Some? && subscriptions[i][ch].value.activityId != ""
                             && subscriptions[i][ch].value.timeoutAt.Some?
                             && subscriptions[i][ch].value.timeoutAt.value < Seconds(now)
                 :: LateWait(i, ch, subscriptions[i][ch].value.activityId, subscriptions[i][ch].value.timeoutAt.value);
      late := EarliestFirst(all, (l: LateWait) => l.timeoutAt, Effective(limit));
    }

    // ---- Transactions ----

    /** A transaction is opened for one instance's activity; SQLite has one at a time. */
    method BeginTransaction(i: string)
      requires Valid() && tx.None?
      modifies this`tx
      ensures Valid() && Touches(i) && ran == old(ran)
      ensures Row(i) == Apply(old(Row(i)), Begin)
      ensures tx == Some(Transaction(i, [], []))
    {
      tx := Some(Transaction(i, [], []));
    }

    method RegisterPostCommitCallback(callback: string) returns (registered: bool)
      requires Valid()
      modifies this`tx
      ensures Valid() && registered == old(tx.Some?) && ran == old(ran)
      ensures tx == if registered then Some(old(tx.value).(callbacks := old(tx.value.callbacks) + [callback])) else None
      ensures forall j :: Row(j) == old(Row(j))
    {
      registered := tx.Some?;
      if registered {
        tx := Some(tx.value.(callbacks := tx.value.callbacks + [callback]));
      }
    }

    method RollbackTransaction()
      requires Valid()
      modifies this`tx
      ensures Valid() && tx.None? && ran == old(ran)
      ensures old(tx.Some?) ==> Touches(old(tx.value.instance))
      ensures forall j :: Row(j) == Apply(old(Row(j)), Rollback)
    {
      tx := None;
    }

    /** All held-back statements take effect; only then do the callbacks run, in order. */
    method CommitTransaction() returns (committed: bool)
      requires Valid()
      modifies this`tx, this`history, this`nextHistory, this`compensations, this`nextCompensation, this`userRows, this`ran
      ensures Valid() && tx.None? && committed == old(tx.Some?)
      ensures ran == old(ran) + if committed then old(tx.value.callbacks) else []
      ensures committed ==> var i := old(tx.value.instance); Touches(i) && Row(i) == Apply(old(Row(i)), Commit)
      ensures !committed ==> forall j :: Row(j) == old(Row(j))
    {
      hide WriteAll, Apply;
      committed := tx.Some?;
      if committed {
        var callbacks := tx.value.callbacks;
        CommitMeans(Row(tx.value.instance));
        CommitHeld();
        RunCallbacks(callbacks);
      }
    }

    method CommitHeld()
      requires Valid() && tx.Some?
      modifies this`tx, this`history, this`nextHistory, this`compensations, this`nextCompensation, this`userRows
      ensures Valid() && tx.None? && ran == old(ran)
      ensures var i := old(tx.value.instance);
              Touches(i) && Row(i) == WriteAll(old(Row(i)).(tx := None), old(tx.value.actions))
    {
      hide WriteAll;
      var i, actions := tx.value.instance, tx.value.actions;
      tx := None;
      assert forall j :: j != i ==> Row(j) == old(Row(j));
      assert Row(i) == old(Row(i)).(tx := None);
      WriteHeld(i, actions);
    }

    method RunCallbacks(callbacks: seq<string>)
      modifies this`ran
      ensures ran == old(ran) + callbacks
    {
      var k := 0;
      while k < |callbacks|
        invariant 0 <= k <= |callbacks| && ran == old(ran) + callbacks[..k]
      {
        ran := ran + [callbacks[k]];
        k := k + 1;
      }
    }

    method WriteHeld(i: string, actions: seq<Action>)
      requires Valid() && tx.None? && forall k :: 0 <= k < |actions| ==> Buffered(actions[k])
      modifies this`history, this`nextHistory, this`compensations, this`nextCompensation, this`userRows
      ensures Valid() && Touches(i) && ran == old(ran)
      ensures Row(i) == WriteAll(old(Row(i)), actions)
    {
      hide Write;
      var k := 0;
      while k < |actions|
        invariant 0 <= k <= |actions| && Valid() && Touches(i) && tx.None? && ran == old(ran)
        invariant Row(i) == WriteAll(old(Row(i)), actions[..k])
      {
        WriteSnoc(old(Row(i)), actions[..k], actions[k]);
        assert actions[..k] + [actions[k]] == actions[..k + 1];
        WriteOne(i, actions[k]);
        k := k + 1;
      }
      assert actions[..k] == actions;
    }

    method WriteOne(i: string, a: Action)
      requires Valid() && tx.None? && Buffered(a)
      modifies this`history, this`nextHistory, this`compensations, this`nextCompensation, this`userRows
      ensures Valid() && Touches(i) && ran == old(ran)
      ensures Row(i) == Write(old(Row(i)), a)
    {
      if a.Append? {
        Insert(i, a.event);
      } else if a.AddCompensation? {
        InsertCompensation(i, a);
      } else {
        userRows := userRows[i := Get(userRows, i, []) + [a.id]];
      }
    }
  }

  lemma CommitMeans(r: Tables.Row)
    requires r.tx.Some?
    ensures Apply(r, Commit) == WriteAll(r.(tx := None), r.tx.value)
  {
    hide WriteAll;
  }

  lemma ApplyThree(r: Tables.Row, a: Action, b: Action, c: Action)
    ensures ApplyAll(r, [a, b, c]) == Apply(Apply(Apply(r, a), b), c)
  {
    hide Apply;
    ApplyPair(r, a, b);
    ApplySnoc(r, [a, b], c);
    assert [a, b] + [c] == [a, b, c];
  }

  lemma AcquiredOnly(r: Tables.Row, worker: string, expires: nat, channel: string, message: nat)
    ensures var r' := Apply(r, Acquire(worker, expires));
            && Refused(r', channel, message) == Refused(r, channel, message)
            && (channel in r.subscriptions ==>
                  channel in r'.subscriptions && DeliveryId(r', channel, message) == DeliveryId(r, channel, message))
    ensures !Refused(r, channel, message) ==> channel in r.subscriptions
  {
  }

  lemma ApplyTwoAndThree(r: Tables.Row, a: Action, b: Action, c: Action, d: Action, e: Action)
    ensures ApplyAll(r, [a, b, c, d, e]) == ApplyAll(Apply(Apply(r, a), b), [c, d, e])
  {
    hide Apply;
    ApplyPair(r, a, b);
    ApplyConcat(r, [a, b], [c, d, e]);
    assert [a, b] + [c, d, e] == [a, b, c, d, e];
  }

  lemma Archived(r: Tables.Row)
    ensures ApplyAll(r, [CopyToArchive, ClearHistory]) == r.(archive := r.archive + r.history, history := [])
  {
    hide Apply;
    ApplyPair(r, CopyToArchive, ClearHistory);
    Copied(r);
    Cleared(Apply(r, CopyToArchive));
  }

  lemma Copied(r: Tables.Row)
    ensures Apply(r, CopyToArchive) == r.(archive := r.archive + r.history)
  {
  }

  lemma Cleared(r: Tables.Row)
    ensures Apply(r, ClearHistory) == r.(history := [])
  {
  }

  lemma Untimed(r: Tables.Row)
    ensures Apply(r, DropTimers) == r.(timers := map[])
  {
  }

  lemma Unwaiting(r: Tables.Row)
    ensures Apply(r, DropSubscriptions) == r.(subscriptions := map[])
  {
  }

  lemma LockBroken(r: Tables.Row)
    ensures Apply(r, BreakLock) == r.(lock := Unlocked)
  {
  }

  function Effective(limit: nat): nat {
    if limit == 0 then 100 else limit
  }

  /** LIMIT: that many of the candidates, or all of them. */
  method AtMost<T(==)>(candidates: set<T>, limit: nat) returns (found: seq<T>)
    ensures |found| <= limit
    ensures forall x :: x in found ==> x in candidates
    ensures |candidates| <= limit ==> forall x :: x in candidates ==> x in found
    ensures |found| < limit ==> forall x :: x in candidates ==> x in found
  {
    found := [];
    var rest := candidates;
    while rest != {} && |found| < limit
      invariant |found| <= limit && rest <= candidates
      invariant forall x :: x in found ==> x in candidates
      invariant forall x :: x in candidates ==> x in rest || x in found
      invariant |found| + |rest| == |candidates|
      decreases rest
    {
      var x :| x in rest;
      found := found + [x];
      rest := rest - {x};
    }
  }

  lemma {:induction false} LeastExists<T>(s: set<T>, key: T -> nat)
    requires s != {}
    ensures exists x :: x in s && forall y :: y in s ==> key(x) <= key(y)
  {
    var x :| x in s;
    if s == {x} {
    } else {
      LeastExists(s - {x}, key);
      var z :| z in s - {x} && forall y :: y in s - {x} ==> key(z) <= key(y);
      var least := if key(x) <= key(z) then x else z;
      assert forall y :: y in s ==> y == x || y in s - {x};
      assert least in s && forall y :: y in s ==> key(least) <= key(y);
    }
  }

  /** ORDER BY the key, LIMIT: that many of the candidates with the least keys, or all of them. */
  method EarliestFirst<T(==)>(candidates: set<T>, key: T -> nat, limit: nat) returns (found: seq<T>)
    ensures |found| <= limit
    ensures forall x :: x in found ==> x in candidates
    ensures forall j, k :: 0 <= j < k < |found| ==> found[j] != found[k] && key(found[j]) <= key(found[k])
    ensures forall x :: x in candidates && x !in found ==>
              |found| == limit && forall k :: 0 <= k < |found| ==> key(found[k]) <= key(x)
  {
    found := [];
    var rest := candidates;
    while rest != {} && |found| < limit
      invariant |found| <= limit && rest <= candidates
      invariant forall x :: x in found ==> x in candidates && x !in rest
      invariant forall x :: x in candidates ==> x in rest || x in found
      invariant forall j, k :: 0 <= j < k < |found| ==> found[j] != found[k] && key(found[j]) <= key(found[k])
      invariant forall x, k :: x in rest && 0 <= k < |found| ==> key(found[k]) <= key(x)
      decreases rest
    {
      LeastExists(rest, key);
      var x :| x in rest && forall y :: y in rest ==> key(x) <= key(y);
      found := found + [x];
      rest := rest - {x};
    }
  }

  /** Either all rows were scanned, or one more than the limit was found. */
  lemma PageFound(rows: seq<HistoryRow>, k: nat, found: seq<HistoryRow>, after: nat, limit: nat)
    requires k <= |rows| && |found| <= limit + 1 && (k == |rows| || |found| == limit + 1)
    requires found + Beyond(rows[k..], after) == Beyond(rows, after)
    ensures PageOf(rows, after, limit) == Page(if |found| > limit then found[..limit] else found, |found| > limit)
  {
    var rest := Beyond(rows, after);
    if k == |rows| {
      assert rows[k..] == [];
      assert found + [] == found;
    }
    assert found == rest[..|found|];
    if |found| > limit {
      assert found[..limit] == rest[..limit];
    }
  }

  lemma BeyondStep(rows: seq<HistoryRow>, k: nat, after: nat, next: nat)
    requires Increasing(rows, next) && k < |rows|
    ensures Beyond(rows[k..], after) ==
            (if rows[k].id > after then [rows[k]] else []) + Beyond(rows[k + 1..], after)
  {
    assert rows[k..][0] == rows[k] && rows[k..][1..] == rows[k + 1..];
    if rows[k].id > after {
      assert rows[k..] == [rows[k]] + rows[k + 1..];
      if k + 1 < |rows| {
        assert rows[k + 1..][0] == rows[k + 1];
      }
    }
  }
}
