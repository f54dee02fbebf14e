/** Reading a history page by page: the iterator, and the scan for executed compensations. */
module HistoryIterators {
  import opened Prelude
  import opened Tables
  import opened Saga
  import opened Storage

  /** The events of a page are the next ones; after the last of them come the rest. */
  lemma PageContinues(rows: seq<HistoryRow>, after: nat, limit: nat, next: nat)
    requires Increasing(rows, next) && limit > 0
    ensures var page, rest := PageOf(rows, after, limit), Beyond(rows, after);
            && |page.events| <= |rest| && page.events == rest[..|page.events|]
            && |page.events| == (if |rest| > limit then limit else |rest|)
            && (page.hasMore <==> |page.events| < |rest|)
            && (forall k :: 0 <= k < |page.events| ==> Beyond(rows, page.events[k].id) == rest[k + 1..])
  {
    var page, rest := PageOf(rows, after, limit), Beyond(rows, after);
    BeyondIsSuffix(rows, after, next);
    var n := |rows| - |rest|;
    forall k | 0 <= k < |page.events| ensures Beyond(rows, page.events[k].id) == rest[k + 1..] {
      assert page.events[k] == rows[n + k];
      BeyondIsSuffix(rows, rows[n + k].id, next);
      BeyondAt(rows, n + k, next);
    }
  }

  lemma BeyondAt(rows: seq<HistoryRow>, k: nat, next: nat)
    requires Increasing(rows, next) && k < |rows|
    ensures Beyond(rows, rows[k].id) == rows[k + 1..]
  {
    hide Beyond;
    BeyondIsSuffix(rows, rows[k].id, next);
    var n := |rows| - |Beyond(rows, rows[k].id)|;
    assert n > k;
    if k + 1 < |rows| {
      assert rows[k].id < rows[k + 1].id;
    }
  }

  class HistoryIterator {
    const storage: SqliteStorage
    const instance: string
    const batchSize: nat
    var buffer: seq<HistoryRow>
    var bufferIdx: nat
    var lastID: nat
    var done: bool
    var err: Option<string>

    ghost function Rows(): seq<HistoryRow>
      reads storage
    {
      Get(storage.history, instance, [])
    }

    /** The events still to come. */
    ghost function Remaining(): seq<HistoryRow>
      reads this, storage
    {
      if done then [] else Beyond(Rows(), lastID)
    }

    ghost predicate Valid()
      reads this, storage
    {
      && storage.Valid() && batchSize > 0 && bufferIdx <= |buffer|
      && (!done ==>
            var rest := Remaining();
            && |buffer| - bufferIdx <= |rest|
            && forall k :: bufferIdx <= k < |buffer| ==>
                 && buffer[k] == rest[k - bufferIdx]
                 && Beyond(Rows(), buffer[k].id) == rest[k - bufferIdx + 1..])
    }

    /** A batch size of zero means 1000. */
    constructor (storage: SqliteStorage, instance: string, batchSize: nat)
      requires storage.Valid()
      ensures Valid() && this.storage == storage && this.instance == instance
      ensures !done && err == None && fresh(this)
      ensures Remaining() == Rows()
    {
      this.storage, this.instance := storage, instance;
      this.batchSize := if batchSize == 0 then 1000 else batchSize;
      buffer, bufferIdx, lastID, done, err := [], 0, 0, false, None;
      new;
      FromZero(Rows(), storage.nextHistory);
    }

    method FetchBatch(answers: bool) returns (failure: Option<string>)
      requires Valid() && !done
      modifies this`buffer, this`bufferIdx, this`done
      ensures failure.Some? == !answers
      ensures !answers ==> buffer == old(buffer) && bufferIdx == old(bufferIdx) && !done
      ensures answers ==> bufferIdx == 0 && (buffer == [] <==> old(Remaining()) == []) && (done ==> buffer == [])
      ensures Valid() && Remaining() == old(Remaining())
    {
      hide Beyond, PageOf, Increasing, IsPage;
      var r := storage.GetHistoryPaginated(instance, lastID, batchSize, answers);
      if r.Failure? {
        return Some(r.error);
      }
      RowsIncrease();
      PageContinues(Rows(), lastID, batchSize, storage.nextHistory);
      buffer, bufferIdx := r.value.events, 0;
      if !r.value.hasMore && |r.value.events| < batchSize {
        if |r.value.events| == 0 {
          done := true;
        }
      }
      return None;
    }

    lemma RowsIncrease()
      requires storage.Valid()
      ensures Increasing(Rows(), storage.nextHistory)
    {
    }

    /** The next event; none at the end, and none from the first failed query on. */
    method Next(answers: bool) returns (event: Option<HistoryRow>)
      requires Valid()
      modifies this
      ensures Valid()
      ensures event.Some? ==> old(Remaining()) != [] && event.value == old(Remaining())[0]
                              && Remaining() == old(Remaining())[1..] && !done && err == old(err) == None
      ensures event.None? && err == None ==> old(Remaining()) == [] && Remaining() == []
      ensures event.None? && old(err) == None && err.Some? ==> !answers
      ensures old(err).Some? ==> event.None? && err == old(err)
    {
      hide Beyond, Increasing;
      if done || err.Some? {
        return None;
      }
      if bufferIdx >= |buffer| {
        var failure := FetchBatch(answers);
        if failure.Some? {
          err := failure;
          return None;
        }
        if |buffer| == 0 {
          done := true;
          return None;
        }
      }
      var found := buffer[bufferIdx];
      bufferIdx := bufferIdx + 1;
      lastID := found.id;
      return Some(found);
    }

    method Close()
      modifies this
      ensures done && Remaining() == [] && err == old(err)
    {
      done, buffer := true, [];
    }

    /** All remaining events, each once and in id order, or the error of a query. */
    method Collect(answers: nat -> bool) returns (r: Result<seq<HistoryRow>>)
      requires Valid() && err == None
      modifies this
      ensures r.Success? ==> r.value == old(Remaining())
      ensures r.Failure? ==> exists k: nat :: k <= |old(Remaining())| && !answers(k)
    {
      hide Beyond, HistoryIterator.Valid, HistoryIterator.Remaining;
      ghost var total := Remaining();
      var all: seq<HistoryRow>, k: nat := [], 0;
      assert [] + total == total;
      while true
        invariant Valid() && err == None && k == |all| && k <= |total|
        invariant all + Remaining() == total
        decreases |Remaining()|
      {
        ghost var before := Remaining();
        var event := Next(answers(k));
        if event.None? {
          break;
        }
        assert before == [event.value] + Remaining();
        assert all + ([event.value] + Remaining()) == (all + [event.value]) + Remaining();
        all, k := all + [event.value], k + 1;
      }
      if err.Some? {
        return Failure(err.value);
      }
      return Success(all);
    }
  }

  /** Ids are positive, so everything lies beyond zero. */
  lemma FromZero(rows: seq<HistoryRow>, next: nat)
    requires Increasing(rows, next)
    ensures Beyond(rows, 0) == rows
  {
  }

  // ---- The scan for executed compensations ----

  lemma ExecutedConcat(first: seq<HistoryRow>, second: seq<HistoryRow>)
    ensures ExecutedIds(Events(first + second)) == ExecutedIds(Events(first)) + ExecutedIds(Events(second))
  {
    var a, b, all := Events(first), Events(second), Events(first + second);
    assert all == a + b;
    forall id | id in ExecutedIds(a) + ExecutedIds(b) ensures id in ExecutedIds(all) {
      if id in ExecutedIds(a) {
        var k :| 0 <= k < |a| && IsResult(a[k]) && a[k].data.compensationId == id;
        assert all[k] == a[k];
      } else {
        var k :| 0 <= k < |b| && IsResult(b[k]) && b[k].data.compensationId == id;
        assert all[|a| + k] == b[k];
      }
    }
  }

  /** How many queries a scan of `n` events takes. */
  function Pages(n: nat, size: nat): nat
    requires size > 0
  {
    if n <= size then 1 else 1 + Pages(n - size, size)
  }

  /** The database answers all the queries of the scan. */
  ghost predicate Reads(n: nat, size: nat, answers: nat -> bool)
    requires size > 0
  {
    forall k :: 0 <= k < Pages(n, size) ==> answers(k)
  }

  /** One page of the scan. */
  method ScanPage(events: seq<HistoryRow>, executed: set<nat>, afterID: nat) returns (all: set<nat>, last: nat)
    ensures all == executed + ExecutedIds(Events(events))
    ensures last == if events == [] then afterID else events[|events| - 1].id
  {
    hide ExecutedIds, Events;
    var k := 0;
    all, last := executed, afterID;
    NoneExecuted();
    assert events[..0] == [];
    while k < |events|
      invariant 0 <= k <= |events|
      invariant all == executed + ExecutedIds(Events(events[..k]))
      invariant last == if k == 0 then afterID else events[k - 1].id
    {
      assert events[..k + 1] == events[..k] + [events[k]];
      ExecutedConcat(events[..k], [events[k]]);
      OneExecuted(events[k]);
      var event := events[k].event;
      if IsResult(event) {
        all := all + {event.data.compensationId};
      }
      last := events[k].id;
      k := k + 1;
    }
    assert events[..k] == events;
  }

  /** What a page takes the scan on by. */
  lemma PageScanned(rows: seq<HistoryRow>, n: nat, afterID: nat, size: nat, next: nat)
    requires Increasing(rows, next) && size > 0 && n <= |rows| && Beyond(rows, afterID) == rows[n..]
    ensures var page := PageOf(rows, afterID, size);
            && n + |page.events| <= |rows| && rows[..n] + page.events == rows[..n + |page.events|]
            && (page.events != [] ==> Beyond(rows, page.events[|page.events| - 1].id) == rows[n + |page.events|..])
            && (page.hasMore ==> |page.events| == size < |rows| - n)
            && (!page.hasMore ==> n + |page.events| == |rows| && |page.events| <= size)
  {
    hide Beyond, PageOf, Increasing;
    PageContinues(rows, afterID, size, next);
    var m := |PageOf(rows, afterID, size).events|;
    assert rows[..n] + rows[n..][..m] == rows[..n + m];
    if m > 0 {
      assert rows[n..][m..] == rows[n + m..];
    }
  }

  /**
   * getExecutedCompensationIDs: page by page, and yet the same set as one pass over the whole
   * history.  It fails exactly if one of its queries does.
   */
  method GetExecutedCompensationIDs(storage: SqliteStorage, instance: string, pageSize: nat, answers: nat -> bool)
    returns (r: Result<set<nat>>)
    requires storage.Valid() && pageSize > 0
    ensures r.Success? <==> Reads(|storage.Row(instance).history|, pageSize, answers)
    ensures (forall k :: answers(k)) ==> r.Success?
    ensures r.Failure? ==> exists k: nat :: !answers(k)
    ensures r.Success? ==> r.value == ExecutedIds(storage.Row(instance).history)
  {
    hide Beyond, PageOf, Increasing, ExecutedIds, Events, IsPage;
    ghost var rows := Get(storage.history, instance, []);
    assert Increasing(rows, storage.nextHistory) by { RowsIncreasing(storage, instance); }
    FromZero(rows, storage.nextHistory);
    RowEvents(storage, instance);
    var executed: set<nat>, afterID: nat, pages: nat := {}, 0, 0;
    ghost var n := 0;
    assert rows[..0] == [] && rows[0..] == rows;
    NoneExecuted();
    while true
      invariant 0 <= n <= |rows| && Beyond(rows, afterID) == rows[n..]
      invariant executed == ExecutedIds(Events(rows[..n]))
      invariant Pages(|rows|, pageSize) == pages + Pages(|rows| - n, pageSize)
      invariant forall k :: 0 <= k < pages ==> answers(k)
      decreases |rows| - n
    {
      var page := storage.GetHistoryPaginated(instance, afterID, pageSize, answers(pages));
      if page.Failure? {
        return Failure(page.error);
      }
      PageScanned(rows, n, afterID, pageSize, storage.nextHistory);
      var events := page.value.events;
      ExecutedConcat(rows[..n], events);
      executed, afterID := ScanPage(events, executed, afterID);
      n := n + |events|;
      if !page.value.hasMore {
        break;
      }
      pages := pages + 1;
    }
    assert rows[..n] == rows;
    return Success(executed);
  }

  lemma RowsIncreasing(storage: SqliteStorage, instance: string)
    requires storage.Valid()
    ensures Increasing(Get(storage.history, instance, []), storage.nextHistory)
  {
  }

  lemma RowEvents(storage: SqliteStorage, instance: string)
    ensures storage.Row(instance).history == Events(Get(storage.history, instance, []))
    ensures |Events(Get(storage.history, instance, []))| == |Get(storage.history, instance, [])|
  {
  }

  lemma NoneExecuted()
    ensures ExecutedIds(Events([])) == {}
  {
  }

  lemma OneExecuted(row: HistoryRow)
    ensures ExecutedIds(Events([row])) == if IsResult(row.event) then {row.event.data.compensationId} else {}
  {
    assert Events([row])[0] == row.event;
  }
}
