/**
 * The outbox relayer: one poll as the loop over a batch, and what any number of polls, cut
 * short anywhere, leave behind.
 */
module Outbox {
  import opened Prelude

  datatype Status = Pending | Published | Failed

  /** A row of outbox_events; `sends` and `acks` are no columns, but what its receiver has seen. */
  datatype Entry = Entry(status: Status, retryCount: nat, sends: nat, acks: nat)

  const ADDED: Entry := Entry(Pending, 0, 0, 0)

  /** The table, and its ids in the order of created_at. */
  datatype State = State(table: map<string, Entry>, order: seq<string>)

  predicate Distinct(ids: seq<string>) {
    forall i, j :: 0 <= i < j < |ids| ==> ids[i] != ids[j]
  }

  ghost predicate Valid(s: State) {
    && Distinct(s.order)
    && (forall id :: id in s.table <==> id in s.order)
  }

  predicate IsPending(s: State, id: string) {
    id in s.table && s.table[id].status.Pending?
  }

  function Wanted(s: State): string -> bool {
    (id: string) => IsPending(s, id)
  }

  /** ORDER BY created_at LIMIT, of the pending ones. */
  function Batch(s: State, limit: nat): (ids: seq<string>)
    ensures |ids| <= limit
  {
    var pending := Filter(s.order, Wanted(s));
    if |pending| <= limit then pending else pending[..limit]
  }

  /** Whether the send of an event succeeds, by the number of attempts counted before it. */
  type Sender = (string, nat) -> bool

  // ---- One event ----

  /** What the loop body does to an event's row and receiver: all of it, or its first `cut` effects. */
  function Handled(e: Entry, ok: bool, maxRetries: nat, cut: nat): Entry {
    if cut == 0 then e
    else if e.retryCount >= maxRetries then e.(status := Failed)
    else if cut == 1 then e.(retryCount := e.retryCount + 1)
    else
      e.(retryCount := e.retryCount + 1, sends := e.sends + 1, acks := e.acks + (if ok then 1 else 0),
         status := if ok && cut > 2 then Published else e.status)
  }

  const WHOLE: nat := 3

  function HandledIn(s: State, id: string, sender: Sender, maxRetries: nat, cut: nat): State
    requires id in s.table
  {
    s.(table := s.table[id := Handled(s.table[id], sender(id, s.table[id].retryCount), maxRetries, cut)])
  }

  /** The first `k` events of a batch, handled one after the other. */
  function Processed(s: State, ids: seq<string>, sender: Sender, maxRetries: nat): State
    requires forall i :: 0 <= i < |ids| ==> ids[i] in s.table
    decreases |ids|
  {
    if ids == [] then s
    else
      Processed(HandledIn(s, ids[0], sender, maxRetries, WHOLE), ids[1..], sender, maxRetries)
  }

  lemma BatchIsPending(s: State, limit: nat)
    requires Valid(s)
    ensures forall i :: 0 <= i < |Batch(s, limit)| ==>
              IsPending(s, Batch(s, limit)[i]) && Batch(s, limit)[i] in s.table
    ensures Distinct(Batch(s, limit))
    ensures Batch(s, limit) == [] && limit > 0 ==> forall id :: id in s.table ==> !IsPending(s, id)
  {
    var keep := Wanted(s);
    FilterMembers(s.order, keep);
    FilterDistinct(s.order, keep);
    var pending := Filter(s.order, keep);
    assert forall i :: 0 <= i < |Batch(s, limit)| ==> Batch(s, limit)[i] == pending[i];
    forall i | 0 <= i < |Batch(s, limit)| ensures IsPending(s, Batch(s, limit)[i]) && Batch(s, limit)[i] in s.table {
      assert Batch(s, limit)[i] == pending[i];
      assert pending[i] in pending;
    }
    if Batch(s, limit) == [] && limit > 0 {
      assert pending == [];
    }
  }

  /** The one event was created before the other. */
  ghost predicate Precedes(order: seq<string>, id: string, id': string) {
    exists k, l :: 0 <= k < l < |order| && order[k] == id && order[l] == id'
  }

  /**
   * The ids are of pending events, in the order of their creation; and one that is left out was
   * created after all of them, and then the limit is reached.
   */
  ghost predicate OldestPending(s: State, ids: seq<string>, limit: nat) {
    && |ids| <= limit
    && (forall i :: 0 <= i < |ids| ==> ids[i] in s.table && s.table[ids[i]].status == Pending)
    && (forall i, j :: 0 <= i < j < |ids| ==> Precedes(s.order, ids[i], ids[j]))
    && (forall id :: id in s.table && s.table[id].status == Pending && id !in ids ==>
          |ids| == limit && forall i :: 0 <= i < |ids| ==> Precedes(s.order, ids[i], id))
  }

  lemma BatchIsOldest(s: State, limit: nat)
    requires Valid(s)
    ensures OldestPending(s, Batch(s, limit), limit)
  {
    hide Batch, Precedes, Filter, Distinct, Wanted;
    BatchIsPending(s, limit);
    var ids, keep := Batch(s, limit), Wanted(s);
    var n := BatchFrom(s.order, keep, limit);
    assert ids == Filter(s.order[..n], keep) by { BatchIsFilter(s, limit); }
    FilterInOrder(s.order[..n], keep);
    forall i, j | 0 <= i < j < |ids| ensures Precedes(s.order, ids[i], ids[j]) {
      PrecedesAlso(s.order, n, ids[i], ids[j]);
    }
    forall id | id in s.table && s.table[id].status == Pending && id !in ids
      ensures |ids| == limit && forall i :: 0 <= i < |ids| ==> Precedes(s.order, ids[i], id)
    {
      LeftOutIsYounger(s, n, ids, limit, id);
    }
  }

  lemma LeftOutIsYounger(s: State, n: nat, ids: seq<string>, limit: nat, id: string)
    requires Valid(s) && n <= |s.order| && ids == Filter(s.order[..n], Wanted(s)) && (n < |s.order| ==> |ids| == limit)
    requires id in s.table && s.table[id].status == Pending && id !in ids
    ensures |ids| == limit && forall i :: 0 <= i < |ids| ==> Precedes(s.order, ids[i], id)
  {
    hide Precedes, Distinct;
    FilterMembers(s.order[..n], Wanted(s));
    var k :| 0 <= k < |s.order| && s.order[k] == id;
    AmongFirst(s.order, n, k);
    forall i | 0 <= i < |ids| ensures Precedes(s.order, ids[i], id) {
      assert ids[i] in s.order[..n];
      PrecedesRest(s.order, n, ids[i], k);
    }
  }

  lemma BatchIsFilter(s: State, limit: nat)
    ensures var wanted := Filter(s.order, Wanted(s));
            Batch(s, limit) == if |wanted| <= limit then wanted else wanted[..limit]
  {
  }

  lemma PrecedesAlso(order: seq<string>, n: nat, id: string, id': string)
    requires n <= |order| && Precedes(order[..n], id, id')
    ensures Precedes(order, id, id')
  {
    var k, l :| 0 <= k < l < n && order[..n][k] == id && order[..n][l] == id';
    assert order[k] == id && order[l] == id';
  }

  lemma PrecedesRest(order: seq<string>, n: nat, id: string, l: nat)
    requires n <= l < |order| && id in order[..n]
    ensures Precedes(order, id, order[l])
  {
    var k :| 0 <= k < n && order[..n][k] == id;
    assert order[k] == id;
  }

  lemma AmongFirst(order: seq<string>, n: nat, k: nat)
    requires n <= |order| && k < |order|
    ensures k < n ==> order[k] in order[..n]
  {
    if k < n {
      assert order[..n][k] == order[k];
    }
  }

  /** The batch is what is wanted of a first part of the list, which ends only when it is full. */
  lemma {:induction false} BatchFrom(order: seq<string>, keep: string -> bool, limit: nat) returns (n: nat)
    ensures n <= |order|
    ensures var wanted := Filter(order, keep);
            Filter(order[..n], keep) == if |wanted| <= limit then wanted else wanted[..limit]
    ensures n < |order| ==> |Filter(order[..n], keep)| == limit
  {
    if |Filter(order, keep)| <= limit {
      n := |order|;
      assert order[..n] == order;
    } else {
      var init := order[..|order| - 1];
      n := BatchFrom(init, keep, limit);
      assert init[..n] == order[..n];
    }
  }

  /** Filtering keeps the order. */
  lemma {:induction false} FilterInOrder(s: seq<string>, keep: string -> bool)
    ensures forall i, j :: 0 <= i < j < |Filter(s, keep)| ==> Precedes(s, Filter(s, keep)[i], Filter(s, keep)[j])
  {
    hide Precedes;
    if s == [] {
      NothingFiltered(keep);
    } else {
      var init, last := s[..|s| - 1], |s| - 1;
      FilterInOrder(init, keep);
      FilterMembers(init, keep);
      var r, r' := Filter(init, keep), Filter(s, keep);
      forall i, j | 0 <= i < j < |r'| ensures Precedes(s, r'[i], r'[j]) {
        if j < |r| {
          PrecedesAlso(s, last, r[i], r[j]);
        } else {
          assert r[i] in init;
          PrecedesRest(s, last, r[i], last);
        }
      }
    }
  }

  lemma NothingFiltered(keep: string -> bool)
    ensures Filter([], keep) == []
  {
  }

  lemma WantedIsPending(s: State, id: string)
    ensures Wanted(s)(id) == IsPending(s, id)
  {
  }

  /** A scan that has seen everything, or found as many as wanted. */
  lemma ScannedEnough(s: State, limit: nat, k: nat)
    requires k <= |s.order|
    requires var found := Filter(s.order[..k], Wanted(s)); |found| <= limit && (k == |s.order| || |found| == limit)
    ensures Filter(s.order[..k], Wanted(s)) == Batch(s, limit)
  {
    hide Wanted;
    var found := Filter(s.order[..k], Wanted(s));
    FilterConcat(s.order[..k], s.order[k..], Wanted(s));
    assert s.order[..k] + s.order[k..] == s.order;
    if k == |s.order| {
      assert s.order[..k] == s.order;
    } else {
      assert (found + Filter(s.order[k..], Wanted(s)))[..limit] == found;
    }
  }

  lemma {:induction false} FilterDistinct(s: seq<string>, keep: string -> bool)
    requires Distinct(s)
    ensures Distinct(Filter(s, keep))
  {
    if s != [] {
      var init := s[..|s| - 1];
      FilterDistinct(init, keep);
      FilterMembers(init, keep);
      var r, x := Filter(init, keep), s[|s| - 1];
      assert forall k :: 0 <= k < |init| ==> init[k] == s[k];
      assert x !in init;
      forall i | 0 <= i < |r| ensures r[i] != x {
        assert r[i] in r;
      }
      var all := Filter(s, keep);
      assert all == r + if keep(x) then [x] else [];
      forall i, j | 0 <= i < j < |all| ensures all[i] != all[j] {
        assert all[i] == r[i] && (j < |r| ==> all[j] == r[j]);
      }
    }
  }

  // ---- The loop ----

  class Relayer {
    var state: State
    const maxRetries: nat
    const batchSize: nat

    constructor (maxRetries: nat, batchSize: nat)
      ensures Valid(state) && state.order == [] && this.maxRetries == maxRetries && this.batchSize == batchSize
    {
      state := State(map[], []);
      this.maxRetries, this.batchSize := maxRetries, batchSize;
    }

    /** AddOutboxEvent; a known id is refused. */
    method Add(id: string) returns (added: bool)
      requires Valid(state)
      modifies this
      ensures Valid(state) && added == (id !in old(state).table)
      ensures state == if added then State(old(state).table[id := Entry(Pending, 0, 0, 0)], old(state).order + [id])
                       else old(state)
    {
      added := id !in state.table;
      if added {
        state := State(state.table[id := ADDED], state.order + [id]);
      }
    }

    method GetPendingOutboxEvents(limit: nat) returns (ids: seq<string>)
      requires Valid(state)
      ensures ids == Batch(state, limit) && OldestPending(state, ids, limit)
    {
      hide IsPending, Wanted, Filter, OldestPending;
      ids := [];
      var k := 0;
      ghost var keep := Wanted(state);
      NothingFiltered(keep);
      assert state.order[..0] == [];
      while k < |state.order| && |ids| < limit
        invariant 0 <= k <= |state.order| && |ids| <= limit
        invariant ids == Filter(state.order[..k], keep)
      {
        assert state.order[..k + 1] == state.order[..k] + [state.order[k]];
        FilterSnoc(state.order[..k], state.order[k], keep);
        WantedIsPending(state, state.order[k]);
        if IsPending(state, state.order[k]) {
          ids := ids + [state.order[k]];
        }
        k := k + 1;
      }
      ScannedEnough(state, limit, k);
      BatchIsOldest(state, limit);
    }

    method IncrementOutboxAttempts(id: string)
      requires id in state.table
      modifies this
      ensures var e := old(state).table[id];
              state == old(state).(table := old(state).table[id := e.(retryCount := e.retryCount + 1)])
    {
      state := state.(table := state.table[id := state.table[id].(retryCount := state.table[id].retryCount + 1)]);
    }

    method MarkOutboxEvent(id: string, status: Status)
      requires id in state.table
      modifies this
      ensures state == old(state).(table := old(state).table[id := old(state).table[id].(status := status)])
    {
      state := state.(table := state.table[id := state.table[id].(status := status)]);
    }

    /** The sender, and the receiver's side of it. */
    method Send(id: string, sender: Sender, attempts: nat) returns (ok: bool)
      requires id in state.table
      modifies this
      ensures ok == sender(id, attempts)
      ensures state == old(state).(table := old(state).table[id := old(state).table[id].(
                sends := old(state).table[id].sends + 1,
                acks := old(state).table[id].acks + if ok then 1 else 0)])
    {
      ok := sender(id, attempts);
      state := state.(table := state.table[id := state.table[id].(
        sends := state.table[id].sends + 1, acks := state.table[id].acks + if ok then 1 else 0)]);
    }

    /** The body of the loop, for an event as the poll found it. */
    method Handle(id: string, retryCount: nat, sender: Sender)
      requires id in state.table && state.table[id].retryCount == retryCount
      modifies this
      ensures state == HandledIn(old(state), id, sender, maxRetries, WHOLE)
    {
      if retryCount >= maxRetries {
        MarkOutboxEvent(id, Failed);
        return;
      }
      IncrementOutboxAttempts(id);
      var ok := Send(id, sender, retryCount);
      if !ok {
        return;
      }
      MarkOutboxEvent(id, Published);
    }

    /** One poll; `stopped(k)` says whether the relayer is told to stop before its event number k. */
    method ProcessPendingEvents(sender: Sender, stopped: nat -> bool) returns (count: nat, done: nat)
      requires Valid(state)
      modifies this
      ensures Valid(state) && count == |Batch(old(state), batchSize)| && done <= count
      ensures forall i :: 0 <= i < |Batch(old(state), batchSize)| ==> Batch(old(state), batchSize)[i] in old(state).table
      ensures state == Processed(old(state), Batch(old(state), batchSize)[..done], sender, maxRetries)
      ensures (forall k :: !stopped(k)) ==> done == count
      ensures state.order == old(state).order && state.table.Keys == old(state).table.Keys
      ensures forall id :: id in old(state).table && id !in Batch(old(state), batchSize)[..done] ==>
                state.table[id] == old(state).table[id]
      ensures forall id :: id in Batch(old(state), batchSize)[..done] ==>
                var e := old(state).table[id];
                state.table[id] == if e.retryCount >= maxRetries then e.(status := Failed)
                                   else if sender(id, e.retryCount)
                                   then Entry(Published, e.retryCount + 1, e.sends + 1, e.acks + 1)
                                   else Entry(Pending, e.retryCount + 1, e.sends + 1, e.acks)
    {
      hide Batch, Wanted, Filter, IsPending, Processed, OldestPending, Distinct;
      ghost var was := state;
      var ids := GetPendingOutboxEvents(batchSize);
      BatchIsPending(state, batchSize);
      count, done := |ids|, 0;
      assert ids[..0] == [];
      NoneProcessed(was, sender, maxRetries);
      var table := state.table;
      var events := seq(|ids|, k requires 0 <= k < |ids| => table[ids[k]]);
      while done < |events|
        invariant done <= |events| == |ids|
        invariant Valid(state) && state.order == was.order
        invariant forall i :: 0 <= i < |ids| ==> ids[i] in state.table
        invariant forall i :: done <= i < |ids| ==> state.table[ids[i]] == events[i]
        invariant state == Processed(was, ids[..done], sender, maxRetries)
      {
        if stopped(done) {
          PollRows(was, batchSize, done, sender, maxRetries);
          return;
        }
        assert ids[..done + 1] == ids[..done] + [ids[done]];
        ProcessedSnoc(was, ids[..done], ids[done], sender, maxRetries);
        Handle(ids[done], events[done].retryCount, sender);
        done := done + 1;
      }
      PollRows(was, batchSize, done, sender, maxRetries);
    }
  }

  /** What handling events of a batch leaves of an event of the table. */
  lemma {:induction false} ProcessedRow(s: State, ids: seq<string>, sender: Sender, maxRetries: nat, id: string)
    requires Distinct(ids) && forall i :: 0 <= i < |ids| ==> ids[i] in s.table && s.table[ids[i]].status == Pending
    requires id in s.table
    ensures var s', e := Processed(s, ids, sender, maxRetries), s.table[id];
            && s'.order == s.order && s'.table.Keys == s.table.Keys
            && s'.table[id] == if id !in ids then e
                               else if e.retryCount >= maxRetries then e.(status := Failed)
                               else if sender(id, e.retryCount)
                               then Entry(Published, e.retryCount + 1, e.sends + 1, e.acks + 1)
                               else Entry(Pending, e.retryCount + 1, e.sends + 1, e.acks)
    decreases |ids|
  {
    hide HandledIn, Distinct;
    if ids != [] {
      HandledRows(s, ids[0], sender, maxRetries);
      TailIsDistinct(ids);
      ProcessedRow(HandledIn(s, ids[0], sender, maxRetries, WHOLE), ids[1..], sender, maxRetries, id);
    }
  }

  lemma TailIsDistinct(ids: seq<string>)
    requires ids != [] && Distinct(ids)
    ensures Distinct(ids[1..]) && ids[0] !in ids[1..]
    ensures forall id :: id in ids <==> id == ids[0] || id in ids[1..]
  {
    assert ids == [ids[0]] + ids[1..];
  }

  /** One event handled whole. */
  lemma HandledRows(s: State, id: string, sender: Sender, maxRetries: nat)
    requires id in s.table && s.table[id].status == Pending
    ensures var s', e := HandledIn(s, id, sender, maxRetries, WHOLE), s.table[id];
            && s'.order == s.order && s'.table.Keys == s.table.Keys
            && (forall other :: other in s.table && other != id ==> s'.table[other] == s.table[other])
            && s'.table[id] == if e.retryCount >= maxRetries then e.(status := Failed)
                               else if sender(id, e.retryCount)
                               then Entry(Published, e.retryCount + 1, e.sends + 1, e.acks + 1)
                               else Entry(Pending, e.retryCount + 1, e.sends + 1, e.acks)
  {
  }

  /** What a poll that handles n events of its batch leaves. */
  lemma PollRows(s: State, limit: nat, n: nat, sender: Sender, maxRetries: nat)
    requires Valid(s) && n <= |Batch(s, limit)|
    ensures forall i :: 0 <= i < n ==> Batch(s, limit)[..n][i] in s.table
    ensures var ids := Batch(s, limit)[..n];
            var s' := Processed(s, ids, sender, maxRetries);
            && s'.order == s.order && s'.table.Keys == s.table.Keys
            && (forall id :: id in s.table && id !in ids ==> s'.table[id] == s.table[id])
            && forall id :: id in ids ==>
                 var e := s.table[id];
                 s'.table[id] == if e.retryCount >= maxRetries then e.(status := Failed)
                                 else if sender(id, e.retryCount)
                                 then Entry(Published, e.retryCount + 1, e.sends + 1, e.acks + 1)
                                 else Entry(Pending, e.retryCount + 1, e.sends + 1, e.acks)
  {
    hide Batch, Processed;
    BatchIsPending(s, limit);
    SomeOf(Batch(s, limit), n);
    var ids := Batch(s, limit)[..n];
    ProcessedKeys(s, ids, sender, maxRetries);
    forall id | id in s.table
      ensures var s', e := Processed(s, ids, sender, maxRetries), s.table[id];
              s'.table[id] == if id !in ids then e
                              else if e.retryCount >= maxRetries then e.(status := Failed)
                              else if sender(id, e.retryCount)
                              then Entry(Published, e.retryCount + 1, e.sends + 1, e.acks + 1)
                              else Entry(Pending, e.retryCount + 1, e.sends + 1, e.acks)
    {
      ProcessedRow(s, ids, sender, maxRetries, id);
    }
  }

  lemma SomeOf(ids: seq<string>, n: nat)
    requires n <= |ids| && Distinct(ids)
    ensures Distinct(ids[..n]) && forall i :: 0 <= i < n ==> ids[..n][i] in ids
  {
  }

  lemma NoneProcessed(s: State, sender: Sender, maxRetries: nat)
    ensures Processed(s, [], sender, maxRetries) == s
  {
  }

  lemma {:induction false} ProcessedSnoc(s: State, ids: seq<string>, id: string, sender: Sender, maxRetries: nat)
    requires forall i :: 0 <= i < |ids| ==> ids[i] in s.table
    requires id in s.table
    ensures var r := Processed(s, ids, sender, maxRetries);
            && r.order == s.order && r.table.Keys == s.table.Keys
            && Processed(s, ids + [id], sender, maxRetries) == HandledIn(r, id, sender, maxRetries, WHOLE)
    decreases |ids|
  {
    if ids == [] {
      assert [] + [id] == [id] && [id][1..] == [];
    } else {
      assert (ids + [id])[1..] == ids[1..] + [id];
      ProcessedSnoc(HandledIn(s, ids[0], sender, maxRetries, WHOLE), ids[1..], id, sender, maxRetries);
    }
  }

  // ---- Runs with crashes ----

  datatype Step =
    | Adding(id: string)
    // a poll that handles `done` events whole, and of the next one the first `cut` effects
    | Polling(limit: nat, sender: Sender, done: nat, cut: nat)

  function Next(s: State, step: Step, maxRetries: nat): State
    requires Valid(s)
  {
    match step
    case Adding(id) => if id in s.table then s else State(s.table[id := ADDED], s.order + [id])
    case Polling(limit, sender, done, cut) =>
      BatchIsPending(s, limit);
      var ids := Batch(s, limit);
      if done >= |ids| then Processed(s, ids, sender, maxRetries)
      else
        ProcessedSnoc(s, ids[..done], ids[done], sender, maxRetries);
        HandledIn(Processed(s, ids[..done], sender, maxRetries), ids[done], sender, maxRetries, cut)
  }

  /**
   * An event is sent at most as often as its attempts are counted, and they are counted up to
   * the limit; it is published only after a send that succeeded, and failed only at the limit.
   */
  predicate Fine(e: Entry, maxRetries: nat) {
    && e.acks <= e.sends <= e.retryCount <= maxRetries
    && (e.status.Published? ==> e.acks > 0)
    && (e.status.Failed? ==> e.retryCount == maxRetries)
  }

  ghost predicate AllFine(s: State, maxRetries: nat) {
    Valid(s) && forall id :: id in s.table ==> Fine(s.table[id], maxRetries)
  }

  lemma HandledFine(s: State, id: string, sender: Sender, maxRetries: nat, cut: nat)
    requires AllFine(s, maxRetries) && id in s.table
    ensures AllFine(HandledIn(s, id, sender, maxRetries, cut), maxRetries)
  {
  }

  lemma {:induction false} ProcessedFine(s: State, ids: seq<string>, sender: Sender, maxRetries: nat)
    requires AllFine(s, maxRetries) && forall i :: 0 <= i < |ids| ==> ids[i] in s.table
    ensures AllFine(Processed(s, ids, sender, maxRetries), maxRetries)
    decreases |ids|
  {
    if ids != [] {
      HandledFine(s, ids[0], sender, maxRetries, WHOLE);
      ProcessedFine(HandledIn(s, ids[0], sender, maxRetries, WHOLE), ids[1..], sender, maxRetries);
    }
  }

  lemma NextFine(s: State, step: Step, maxRetries: nat)
    requires AllFine(s, maxRetries)
    ensures AllFine(Next(s, step, maxRetries), maxRetries)
  {
    if step.Polling? {
      BatchIsPending(s, step.limit);
      var ids := Batch(s, step.limit);
      if step.done >= |ids| {
        ProcessedFine(s, ids, step.sender, maxRetries);
      } else {
        ProcessedFine(s, ids[..step.done], step.sender, maxRetries);
        ProcessedSnoc(s, ids[..step.done], ids[step.done], step.sender, maxRetries);
        HandledFine(Processed(s, ids[..step.done], step.sender, maxRetries), ids[step.done], step.sender, maxRetries, step.cut);
      }
    }
  }

  function Run(s: State, steps: seq<Step>, maxRetries: nat): State
    requires AllFine(s, maxRetries)
    decreases |steps|
  {
    if steps == [] then s
    else
      NextFine(s, steps[0], maxRetries);
      Run(Next(s, steps[0], maxRetries), steps[1..], maxRetries)
  }

  /** In every state any run of additions and polls, cut anywhere, reaches. */
  lemma {:induction false} SendsAreBounded(s: State, steps: seq<Step>, maxRetries: nat)
    requires AllFine(s, maxRetries)
    ensures AllFine(Run(s, steps, maxRetries), maxRetries)
    decreases |steps|
  {
    if steps != [] {
      NextFine(s, steps[0], maxRetries);
      SendsAreBounded(Next(s, steps[0], maxRetries), steps[1..], maxRetries);
    }
  }

  // ---- Published once ----

  /** An event that is pending no more keeps its row through any step. */
  lemma SettledStays(s: State, step: Step, maxRetries: nat, id: string)
    requires Valid(s) && id in s.table && s.table[id].status != Pending
    ensures var s' := Next(s, step, maxRetries); id in s'.table && s'.table[id] == s.table[id]
  {
    hide Batch, Processed, Handled, Distinct;
    if step.Polling? {
      BatchIsPending(s, step.limit);
      var ids := Batch(s, step.limit);
      var n := if step.done < |ids| then step.done else |ids|;
      PollRows(s, step.limit, n, step.sender, maxRetries);
      assert ids[..|ids|] == ids;
      if step.done < |ids| {
        ProcessedSnoc(s, ids[..step.done], ids[step.done], step.sender, maxRetries);
      }
    }
  }

  lemma {:induction false} SettledForGood(s: State, steps: seq<Step>, maxRetries: nat, id: string)
    requires AllFine(s, maxRetries) && id in s.table && s.table[id].status != Pending
    ensures var s' := Run(s, steps, maxRetries); id in s'.table && s'.table[id] == s.table[id]
    decreases |steps|
  {
    hide Next;
    if steps != [] {
      NextFine(s, steps[0], maxRetries);
      SettledStays(s, steps[0], maxRetries, id);
      SettledForGood(Next(s, steps[0], maxRetries), steps[1..], maxRetries, id);
    }
  }

  /**
   * An event below the limit that a poll gets through and whose send succeeds is published, with
   * that send as its last: whatever additions and polls follow, cut anywhere, its row stays so.
   */
  lemma PublishedForGood(
    s: State, limit: nat, sender: Sender, done: nat, cut: nat, k: nat, steps: seq<Step>, maxRetries: nat)
    requires AllFine(s, maxRetries) && k < done && k < |Batch(s, limit)|
    requires Batch(s, limit)[k] in s.table
    requires s.table[Batch(s, limit)[k]].retryCount < maxRetries
    requires sender(Batch(s, limit)[k], s.table[Batch(s, limit)[k]].retryCount)
    ensures var id, e := Batch(s, limit)[k], s.table[Batch(s, limit)[k]];
            var s' := Next(s, Polling(limit, sender, done, cut), maxRetries);
            && AllFine(s', maxRetries)
            && id in Run(s', steps, maxRetries).table
            && Run(s', steps, maxRetries).table[id] == Entry(Published, e.retryCount + 1, e.sends + 1, e.acks + 1)
  {
    hide Run, Batch, Processed, OldestPending, Distinct;
    var step, ids := Polling(limit, sender, done, cut), Batch(s, limit);
    BatchIsPending(s, limit);
    var n := if done < |ids| then done else |ids|;
    PollRows(s, limit, n, sender, maxRetries);
    assert ids[..|ids|] == ids && ids[..n][k] == ids[k];
    if done < |ids| {
      OthersStay(s, ids, done, k, sender, maxRetries, cut);
    }
    NextFine(s, step, maxRetries);
    SettledForGood(Next(s, step, maxRetries), steps, maxRetries, ids[k]);
  }

  /** The event in which a poll dies is none of those before it. */
  lemma OthersStay(s: State, ids: seq<string>, done: nat, k: nat, sender: Sender, maxRetries: nat, cut: nat)
    requires k < done < |ids| && Distinct(ids) && forall i :: 0 <= i < |ids| ==> ids[i] in s.table
    ensures var s' := Processed(s, ids[..done], sender, maxRetries);
            && ids[done] in s'.table && ids[k] in s'.table
            && HandledIn(s', ids[done], sender, maxRetries, cut).table[ids[k]] == s'.table[ids[k]]
  {
    hide Processed;
    ProcessedSnoc(s, ids[..done], ids[done], sender, maxRetries);
  }

  /**
   * Sending is at least once.  A poll that dies in an event below the limit leaves it pending: with an
   * attempt counted and nothing sent, or with a send that no column tells of.  So an event whose send
   * succeeded before the death is sent again, and published only then.
   */
  lemma DyingSendsAgain(s: State, limit: nat, sender: Sender, again: Sender, done: nat, maxRetries: nat)
    requires Valid(s) && done < |Batch(s, limit)| && Batch(s, limit)[done] in s.table
    requires s.table[Batch(s, limit)[done]].retryCount + 1 < maxRetries
    requires forall n :: sender(Batch(s, limit)[done], n) && again(Batch(s, limit)[done], n)
    ensures var id, e := Batch(s, limit)[done], s.table[Batch(s, limit)[done]];
            var counted := Next(s, Polling(limit, sender, done, 1), maxRetries);
            var sent := Next(s, Polling(limit, sender, done, 2), maxRetries);
            && id in counted.table && counted.table[id] == Entry(Pending, e.retryCount + 1, e.sends, e.acks)
            && id in sent.table && sent.table[id] == Entry(Pending, e.retryCount + 1, e.sends + 1, e.acks + 1)
            && HandledIn(sent, id, again, maxRetries, WHOLE).table[id] ==
                 Entry(Published, e.retryCount + 2, e.sends + 2, e.acks + 2)
  {
    hide Batch, Processed, Distinct;
    BatchIsPending(s, limit);
    var ids := Batch(s, limit);
    PollRows(s, limit, done, sender, maxRetries);
    NotBefore(ids, done);
    ProcessedSnoc(s, ids[..done], ids[done], sender, maxRetries);
  }

  lemma NotBefore(ids: seq<string>, done: nat)
    requires Distinct(ids) && done < |ids|
    ensures ids[done] !in ids[..done]
  {
  }

  // ---- Draining ----

  /** How many more polls an event can take. */
  function Weight(e: Entry, maxRetries: nat): nat {
    if e.status.Pending? && e.retryCount <= maxRetries then maxRetries - e.retryCount + 1 else 0
  }

  function Measure(s: State, ids: seq<string>, maxRetries: nat): nat
    requires forall i :: 0 <= i < |ids| ==> ids[i] in s.table
  {
    if ids == [] then 0
    else Measure(s, ids[..|ids| - 1], maxRetries) + Weight(s.table[ids[|ids| - 1]], maxRetries)
  }

  /** The polls that are still needed at most. */
  function Left(s: State, maxRetries: nat): nat
    requires Valid(s)
  {
    Measure(s, s.order, maxRetries)
  }

  /** Changing one event of a list changes the measure by the difference of its weights. */
  lemma {:induction false} MeasureChanges(s: State, ids: seq<string>, id: string, e: Entry, maxRetries: nat)
    requires forall i :: 0 <= i < |ids| ==> ids[i] in s.table
    requires Distinct(ids)
    requires id in s.table
    ensures var s' := s.(table := s.table[id := e]);
            Measure(s', ids, maxRetries) ==
            Measure(s, ids, maxRetries)
            + if id in ids then Weight(e, maxRetries) - Weight(s.table[id], maxRetries) else 0
  {
    if ids != [] {
      var init := ids[..|ids| - 1];
      MeasureChanges(s, init, id, e, maxRetries);
      assert ids == init + [ids[|ids| - 1]];
      if ids[|ids| - 1] == id {
        assert id !in init;
      }
    }
  }

  lemma HandledDrops(s: State, id: string, sender: Sender, maxRetries: nat)
    requires AllFine(s, maxRetries) && IsPending(s, id)
    ensures var s' := HandledIn(s, id, sender, maxRetries, WHOLE);
            AllFine(s', maxRetries) && Left(s', maxRetries) < Left(s, maxRetries)
  {
    HandledFine(s, id, sender, maxRetries, WHOLE);
    MeasureChanges(s, s.order, id, Handled(s.table[id], sender(id, s.table[id].retryCount), maxRetries, WHOLE), maxRetries);
  }

  lemma {:induction false} ProcessedDrops(s: State, ids: seq<string>, sender: Sender, maxRetries: nat)
    requires AllFine(s, maxRetries)
    requires forall i :: 0 <= i < |ids| ==> ids[i] in s.table && IsPending(s, ids[i])
    requires Distinct(ids)
    ensures var s' := Processed(s, ids, sender, maxRetries);
            AllFine(s', maxRetries) && Left(s', maxRetries) + |ids| <= Left(s, maxRetries)
    decreases |ids|
  {
    if ids != [] {
      HandledDrops(s, ids[0], sender, maxRetries);
      ProcessedDrops(HandledIn(s, ids[0], sender, maxRetries, WHOLE), ids[1..], sender, maxRetries);
    }
  }

  /** Every poll that runs through a non-empty batch needs at least one poll less afterwards. */
  lemma PollDrops(s: State, limit: nat, sender: Sender, maxRetries: nat)
    requires AllFine(s, maxRetries)
    ensures var s' := Next(s, Polling(limit, sender, |Batch(s, limit)|, 0), maxRetries);
            AllFine(s', maxRetries) && Left(s', maxRetries) + |Batch(s, limit)| <= Left(s, maxRetries)
  {
    BatchIsPending(s, limit);
    ProcessedDrops(s, Batch(s, limit), sender, maxRetries);
  }

  /** Whole polls, one after the other, each with its own luck in sending. */
  function Polled(s: State, limit: nat, senders: seq<Sender>, maxRetries: nat): State
    requires AllFine(s, maxRetries)
    decreases |senders|
  {
    if senders == [] then s
    else
      var step := Polling(limit, senders[0], |Batch(s, limit)|, 0);
      NextFine(s, step, maxRetries);
      Polled(Next(s, step, maxRetries), limit, senders[1..], maxRetries)
  }

  /**
   * The outbox drains: with no new events, after as many whole polls as there were steps left
   * every event is published or failed, whatever the receiver does.
   */
  lemma {:induction false} Drains(s: State, limit: nat, senders: seq<Sender>, maxRetries: nat)
    requires AllFine(s, maxRetries) && limit > 0 && Left(s, maxRetries) <= |senders|
    ensures forall id :: id in s.table ==>
              id in Polled(s, limit, senders, maxRetries).table
              && !IsPending(Polled(s, limit, senders, maxRetries), id)
    decreases |senders|
  {
    BatchIsPending(s, limit);
    if senders == [] {
      forall id | id in s.table ensures !IsPending(s, id) {
        if IsPending(s, id) {
          LeftCounts(s, s.order, id, maxRetries);
        }
      }
    } else {
      var step := Polling(limit, senders[0], |Batch(s, limit)|, 0);
      NextFine(s, step, maxRetries);
      PollDrops(s, limit, senders[0], maxRetries);
      var s' := Next(s, step, maxRetries);
      ProcessedKeys(s, Batch(s, limit), senders[0], maxRetries);
      if Batch(s, limit) == [] {
        assert s' == s;
        NothingPolled(s, limit, senders, maxRetries);
      } else {
        Drains(s', limit, senders[1..], maxRetries);
      }
    }
  }

  lemma {:induction false} ProcessedKeys(s: State, ids: seq<string>, sender: Sender, maxRetries: nat)
    requires forall i :: 0 <= i < |ids| ==> ids[i] in s.table
    ensures Processed(s, ids, sender, maxRetries).table.Keys == s.table.Keys
    ensures Processed(s, ids, sender, maxRetries).order == s.order
    decreases |ids|
  {
    if ids != [] {
      ProcessedKeys(HandledIn(s, ids[0], sender, maxRetries, WHOLE), ids[1..], sender, maxRetries);
    }
  }

  /** With nothing pending, polls change nothing. */
  lemma {:induction false} NothingPolled(s: State, limit: nat, senders: seq<Sender>, maxRetries: nat)
    requires AllFine(s, maxRetries) && Batch(s, limit) == []
    ensures Polled(s, limit, senders, maxRetries) == s
    decreases |senders|
  {
    if senders != [] {
      NothingPolled(s, limit, senders[1..], maxRetries);
    }
  }

  lemma {:induction false} LeftCounts(s: State, ids: seq<string>, id: string, maxRetries: nat)
    requires forall i :: 0 <= i < |ids| ==> ids[i] in s.table
    requires id in ids && IsPending(s, id) && s.table[id].retryCount <= maxRetries
    ensures Measure(s, ids, maxRetries) > 0
  {
    if ids[|ids| - 1] != id {
      assert ids == ids[..|ids| - 1] + [ids[|ids| - 1]];
      LeftCounts(s, ids[..|ids| - 1], id, maxRetries);
    }
  }
}
