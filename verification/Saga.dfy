/**
 * Saga rollback: what one pass over the registered compensations does, and what any number
 * of interrupted passes come to.
 */
module Saga {
  import opened Prelude
  import opened ActivityIds
  import opened Ordering
  import opened Tables

  /** ORDER BY created_at DESC, id DESC. */
  predicate Later(a: Compensation, b: Compensation) {
    a.createdAt > b.createdAt || (a.createdAt == b.createdAt && a.id > b.id)
  }

  /** GetCompensations. */
  function Lifo(entries: seq<Compensation>): seq<Compensation> {
    Sort(entries, Later)
  }

  predicate DistinctIds(entries: seq<Compensation>) {
    forall i, j :: 0 <= i < j < |entries| ==> entries[i].id != entries[j].id
  }

  /** Entries as they were registered under a clock that does not run backwards. */
  predicate InClockOrder(entries: seq<Compensation>) {
    forall i, j :: 0 <= i < j < |entries| ==>
      entries[i].id < entries[j].id && entries[i].createdAt <= entries[j].createdAt
  }

  /** With such a clock the order is exactly the reverse of registration, ties included. */
  lemma LifoReversesRegistration(entries: seq<Compensation>)
    requires InClockOrder(entries)
    ensures Lifo(entries) == Reverse(entries)
  {
    SortSorts(entries, Later);
    ReverseElements(entries);
    SortedUnique(Lifo(entries), Reverse(entries), Later);
  }

  lemma LifoKeepsIdsDistinct(entries: seq<Compensation>)
    requires DistinctIds(entries)
    ensures DistinctIds(Lifo(entries)) && |Lifo(entries)| == |entries|
  {
    SortSorts(entries, Later);
    assert |multiset(Lifo(entries))| == |multiset(entries)|;
    var r := Lifo(entries);
    forall i, j | 0 <= i < j < |r| ensures r[i].id != r[j].id {
      assert Later(r[i], r[j]);
      assert r[i] in multiset(r) && r[j] in multiset(r);
      var a :| 0 <= a < |entries| && entries[a] == r[i];
      var b :| 0 <= b < |entries| && entries[b] == r[j];
      assert a != b;
    }
  }

  predicate IsResult(e: Event) {
    (e.kind.CompensationExecuted? || e.kind.CompensationFailed?) && e.data.CompensationResult?
  }

  /** The compensations a history says have been executed, in one pass over it. */
  function ExecutedIds(history: seq<Event>): set<nat> {
    set i | 0 <= i < |history| && IsResult(history[i]) :: history[i].data.compensationId
  }

  function RecordId(id: nat): string {
    Render("compensation", id)
  }

  /** `error` is what the compensation function failed with, None if it did not. */
  function ResultEvent(entry: Compensation, error: Option<string>): Event {
    match error
    case None =>
      Event(RecordId(entry.id), CompensationExecuted, CompensationResult(entry.id, entry.activityName, ""))
    case Some(m) =>
      Event(RecordId(entry.id), CompensationFailed, CompensationResult(entry.id, entry.activityName, m))
  }

  /** `e` stands under the id of `entry`, and names it. */
  predicate IsResultOf(e: Event, entry: Compensation) {
    && IsResult(e) && e.activityId == Render("compensation", entry.id)
    && e.data.compensationId == entry.id && e.data.activityName == entry.activityName
  }

  /** `e` says with what the compensation failed, or that it did not. */
  predicate Tells(e: Event, error: Option<string>) {
    && IsResult(e)
    && (e.kind.CompensationFailed? <==> error.Some?)
    && e.data.error == if error.Some? then error.value else ""
  }

  lemma ResultTells(entry: Compensation, error: Option<string>)
    ensures IsResultOf(ResultEvent(entry, error), entry) && Tells(ResultEvent(entry, error), error)
  {
  }

  /**
   * One pass: attempt and record, entry by entry, leaving out what the history already has.
   * The Call of an entry is its attempt: its executor is looked up and, if there is one, run.
   */
  function PassActions(entries: seq<Compensation>, executed: set<nat>, errors: Compensation -> Option<string>): seq<Action> {
    if entries == [] then []
    else
      (if entries[0].id in executed then []
       else [Call(RecordId(entries[0].id)), Append(ResultEvent(entries[0], errors(entries[0])))])
      + PassActions(entries[1..], executed, errors)
  }

  function RollbackActions(r: Row, errors: Compensation -> Option<string>): seq<Action> {
    PassActions(Lifo(r.compensations), ExecutedIds(r.history), errors)
  }

  /** Every action of a pass is a call or the record of a result. */
  lemma {:induction false} PassShape(entries: seq<Compensation>, executed: set<nat>, errors: Compensation -> Option<string>)
    ensures forall i :: 0 <= i < |PassActions(entries, executed, errors)| ==>
              var a := PassActions(entries, executed, errors)[i];
              a.Call? || (a.Append? && IsResult(a.event) && a.event.activityId == RecordId(a.event.data.compensationId))
  {
    if entries != [] {
      PassShape(entries[1..], executed, errors);
    }
  }

  // ---- Passes cut short ----

  function Results(history: seq<Event>): (results: seq<Event>)
    ensures forall i :: 0 <= i < |results| ==> IsResult(results[i])
  {
    FilterMembers(history, IsResult);
    Filter(history, IsResult)
  }

  function Recorded(entries: seq<Compensation>, errors: Compensation -> Option<string>): (events: seq<Event>)
    ensures |events| == |entries|
    ensures forall i :: 0 <= i < |entries| ==> events[i] == ResultEvent(entries[i], errors(entries[i]))
  {
    seq(|entries|, i requires 0 <= i < |entries| => ResultEvent(entries[i], errors(entries[i])))
  }

  /** No record other than a compensation's own result stands under its id. */
  ghost predicate Ready(r: Row) {
    && r.tx.None?
    && DistinctIds(r.compensations)
    && forall i :: 0 <= i < |r.compensations| && HasId(r.history, RecordId(r.compensations[i].id)) ==>
         r.compensations[i].id in ExecutedIds(r.history)
  }

  /** The results recorded so far are those of the first m entries, in LIFO order. */
  ghost predicate Done(r: Row, m: nat) {
    && m <= |Lifo(r.compensations)|
    && |Results(r.history)| == m
    && forall i :: 0 <= i < m ==> IsResultOf(Results(r.history)[i], Lifo(r.compensations)[i])
  }

  lemma {:induction false} PassSkips(
    entries: seq<Compensation>, executed: set<nat>, errors: Compensation -> Option<string>, m: nat)
    requires m <= |entries|
    requires forall i :: 0 <= i < |entries| ==> (entries[i].id in executed <==> i < m)
    ensures PassActions(entries, executed, errors) == PassActions(entries[m..], {}, errors)
  {
    if entries != [] {
      PassSkips(entries[1..], executed, errors, if m > 0 then m - 1 else 0);
      if m > 0 {
        assert entries[1..][m - 1..] == entries[m..];
      } else {
        assert entries[0..] == entries && entries[1..][0..] == entries[1..];
      }
    }
  }

  lemma OnePair(r: Row, id: string, e: Event, cut: nat)
    requires r.tx.None? && cut <= 2 && !HasId(r.history, e.activityId)
    ensures After(r, [Call(id), Append(e)], cut) == (if cut < 2 then r else r.(history := r.history + [e]))
    ensures ApplyAll(r, [Call(id), Append(e)]) == r.(history := r.history + [e])
  {
    hide ApplyAll;
    ApplyPair(r, Call(id), Append(e));
    assert cut == 0 ==> [Call(id), Append(e)][..cut] == [];
    assert cut == 1 ==> [Call(id), Append(e)][..cut] == [Call(id)];
    assert cut == 2 ==> [Call(id), Append(e)][..cut] == [Call(id), Append(e)];
    ApplyNone(r);
  }

  function CallsOf(actions: seq<Action>): seq<string> {
    if actions == [] then []
    else (if actions[0].Call? then [actions[0].id] else []) + CallsOf(actions[1..])
  }

  function Ids(entries: seq<Compensation>): (ids: seq<string>)
    ensures |ids| == |entries|
    ensures forall i :: 0 <= i < |entries| ==> ids[i] == RecordId(entries[i].id)
  {
    seq(|entries|, i requires 0 <= i < |entries| => RecordId(entries[i].id))
  }

  /** Of a pass cut anywhere: which entries it has called for. */
  lemma {:induction false} FreshCalls(entries: seq<Compensation>, errors: Compensation -> Option<string>, cut: nat)
    requires cut <= 2 * |entries|
    ensures var all := PassActions(entries, {}, errors);
            && |all| == 2 * |entries|
            && CallsOf(all[..cut]) == Ids(entries[..(cut + 1) / 2])
    decreases |entries|
  {
    hide ResultEvent, RecordId, CallsOf;
    NoCalls();
    if entries != [] {
      var first := PassPair(entries[0], errors);
      var rest := PassActions(entries[1..], {}, errors);
      var all := PassActions(entries, {}, errors);
      assert all == first + rest;
      FreshCalls(entries[1..], errors, if cut < 2 then 0 else cut - 2);
      if cut < 2 {
        assert all[..cut] == first[..cut];
        FewCalls(first, cut);
        assert Ids(entries[..(cut + 1) / 2]) == if cut == 0 then [] else [first[0].id];
      } else {
        assert all[..cut] == [first[0]] + ([first[1]] + rest[..cut - 2]);
        PairCalls(first[0], first[1], rest[..cut - 2]);
        var k := (cut + 1) / 2;
        assert Ids(entries[..k]) == [RecordId(entries[0].id)] + Ids(entries[1..][..k - 1]);
      }
    }
  }

  lemma NoCalls()
    ensures CallsOf([]) == []
  {
  }

  function PassPair(entry: Compensation, errors: Compensation -> Option<string>): seq<Action> {
    [Call(RecordId(entry.id)), Append(ResultEvent(entry, errors(entry)))]
  }

  lemma RecordedCons(history: seq<Event>, entries: seq<Compensation>, errors: Compensation -> Option<string>, n: nat)
    requires 0 < n <= |entries|
    ensures history + [ResultEvent(entries[0], errors(entries[0]))] + Recorded(entries[1..][..n - 1], errors) ==
            history + Recorded(entries[..n], errors)
  {
    assert [ResultEvent(entries[0], errors(entries[0]))] + Recorded(entries[1..][..n - 1], errors) ==
           Recorded(entries[..n], errors);
  }

  lemma StaysFree(history: seq<Event>, entries: seq<Compensation>, errors: Compensation -> Option<string>)
    requires entries != [] && DistinctIds(entries)
    requires forall i :: 0 <= i < |entries| ==> !HasId(history, RecordId(entries[i].id))
    ensures var next := history + [ResultEvent(entries[0], errors(entries[0]))];
            forall i :: 0 <= i < |entries[1..]| ==> !HasId(next, RecordId(entries[1..][i].id))
  {
    forall i | 0 <= i < |entries[1..]|
      ensures !HasId(history + [ResultEvent(entries[0], errors(entries[0]))], RecordId(entries[1..][i].id))
    {
      RecordIdsDiffer(entries[0].id, entries[i + 1].id);
    }
  }

  /** A pass over entries none of which is recorded yet, cut anywhere. */
  lemma {:induction false} FreshPass(r: Row, entries: seq<Compensation>, errors: Compensation -> Option<string>, cut: nat)
    requires r.tx.None? && DistinctIds(entries)
    requires forall i :: 0 <= i < |entries| ==> !HasId(r.history, RecordId(entries[i].id))
    requires cut <= 2 * |entries| == |PassActions(entries, {}, errors)|
    ensures After(r, PassActions(entries, {}, errors), cut) ==
            r.(history := r.history + Recorded(entries[..cut / 2], errors))
    decreases |entries|
  {
    hide ApplyAll, After, HasId, CallsOf, Recorded, ResultEvent;
    if entries == [] {
      AfterNone(r);
      assert entries[..0] == [] && |Recorded([], errors)| == 0;
    } else {
      var e := ResultEvent(entries[0], errors(entries[0]));
      var first := PassPair(entries[0], errors);
      var rest := PassActions(entries[1..], {}, errors);
      assert PassActions(entries, {}, errors) == first + rest;
      var next := r.(history := r.history + [e]);
      assert e.activityId == RecordId(entries[0].id) by { ResultId(entries[0], errors(entries[0])); }
      OnePair(r, RecordId(entries[0].id), e, if cut <= 2 then cut else 0);
      CutConcat(r, first, rest, cut);
      if cut < 2 {
        assert r.history + Recorded(entries[..0], errors) == r.history;
      } else {
        FreshCalls(entries[1..], errors, 0);
        StaysFree(r.history, entries, errors);
        FreshPass(next, entries[1..], errors, cut - 2);
        RecordedCons(r.history, entries, errors, cut / 2);
      }
    }
  }

  lemma ResultId(entry: Compensation, error: Option<string>)
    ensures ResultEvent(entry, error).activityId == RecordId(entry.id)
  {
  }

  lemma FewCalls(pair: seq<Action>, cut: nat)
    requires |pair| == 2 && cut < 2 && pair[0].Call?
    ensures CallsOf(pair[..cut]) == if cut == 0 then [] else [pair[0].id]
  {
    if cut == 1 {
      assert pair[..1] == [pair[0]] && pair[..1][1..] == [];
    }
  }

  lemma PairCalls(a: Action, b: Action, rest: seq<Action>)
    requires a.Call? && !b.Call?
    ensures CallsOf([a] + ([b] + rest)) == [a.id] + CallsOf(rest)
  {
    assert ([a] + ([b] + rest))[1..] == [b] + rest;
    assert ([b] + rest)[1..] == rest;
  }

  lemma RecordIdsDiffer(m: nat, n: nat)
    requires m != n
    ensures RecordId(m) != RecordId(n)
  {
    if RecordId(m) == RecordId(n) {
      RenderInjective("compensation", m, "compensation", n);
    }
  }

  lemma ResultsAreExecuted(history: seq<Event>, id: nat)
    ensures id in ExecutedIds(history) <==>
            exists i :: 0 <= i < |Results(history)| && Results(history)[i].data.compensationId == id
  {
    FilterMembers(history, IsResult);
    if id in ExecutedIds(history) {
      var i :| 0 <= i < |history| && IsResult(history[i]) && history[i].data.compensationId == id;
      assert history[i] in Results(history);
    }
    if i :| 0 <= i < |Results(history)| && Results(history)[i].data.compensationId == id {
      assert Results(history)[i] in history;
      var j :| 0 <= j < |history| && history[j] == Results(history)[i];
    }
  }

  /** What is left to do is exactly the entries after the first m. */
  lemma ExecutedIsPrefix(r: Row, m: nat)
    requires Ready(r) && Done(r, m)
    ensures forall i :: 0 <= i < |Lifo(r.compensations)| ==>
              (Lifo(r.compensations)[i].id in ExecutedIds(r.history) <==> i < m)
    ensures forall i :: m <= i < |Lifo(r.compensations)| ==>
              !HasId(r.history, RecordId(Lifo(r.compensations)[i].id))
    ensures DistinctIds(Lifo(r.compensations)[m..])
  {
    hide Lifo, HasId, RecordId;
    var lifo := Lifo(r.compensations);
    LifoKeepsIdsDistinct(r.compensations);
    forall i | 0 <= i < |lifo| ensures lifo[i].id in ExecutedIds(r.history) <==> i < m {
      ResultsAreExecuted(r.history, lifo[i].id);
    }
    forall i | m <= i < |lifo| ensures !HasId(r.history, RecordId(lifo[i].id)) {
      LifoMember(r.compensations, i);
    }
  }

  lemma LifoMember(entries: seq<Compensation>, i: nat)
    requires i < |Lifo(entries)|
    ensures Lifo(entries)[i] in entries
  {
    assert Lifo(entries)[i] in multiset(Lifo(entries));
  }

  /** A pass over a half-done rollback, cut anywhere, does the next entries in LIFO order. */
  lemma PassContinues(r: Row, m: nat, errors: Compensation -> Option<string>, cut: nat)
    requires Ready(r) && Done(r, m)
    requires cut <= |RollbackActions(r, errors)|
    ensures var lifo, r' := Lifo(r.compensations), After(r, RollbackActions(r, errors), cut);
            && |RollbackActions(r, errors)| == 2 * (|lifo| - m)
            && r' == r.(history := r.history + Recorded(lifo[m..m + cut / 2], errors))
            && Ready(r') && Done(r', m + cut / 2)
            && CallsOf(RollbackActions(r, errors)[..cut]) == Ids(lifo[m..m + (cut + 1) / 2])
  {
    hide ApplyAll, After, Lifo, Ready, Done, CallsOf, PassActions, ExecutedIds, Recorded, Ids;
    var lifo := Lifo(r.compensations);
    DoneBound(r, m);
    ExecutedIsPrefix(r, m);
    PassSkips(lifo, ExecutedIds(r.history), errors, m);
    ReadyOpen(r);
    FreshCalls(lifo[m..], errors, 0);
    FreshCalls(lifo[m..], errors, cut);
    FreshPass(r, lifo[m..], errors, cut);
    assert lifo[m..][..cut / 2] == lifo[m..m + cut / 2];
    assert lifo[m..][..(cut + 1) / 2] == lifo[m..m + (cut + 1) / 2];
    RecordedIsDone(r, m, errors, cut / 2);
  }

  lemma DoneBound(r: Row, m: nat)
    requires Done(r, m)
    ensures m <= |Lifo(r.compensations)|
  {
  }

  lemma ReadyOpen(r: Row)
    requires Ready(r)
    ensures r.tx.None?
  {
  }

  lemma RecordedIsDone(r: Row, m: nat, errors: Compensation -> Option<string>, n: nat)
    requires Ready(r) && Done(r, m) && m + n <= |Lifo(r.compensations)|
    ensures var lifo := Lifo(r.compensations);
            var r' := r.(history := r.history + Recorded(lifo[m..m + n], errors));
            Ready(r') && Done(r', m + n)
  {
    hide Lifo, HasId, ExecutedIds, IsResult, RecordId, DistinctIds, Results;
    var lifo := Lifo(r.compensations);
    var more := Recorded(lifo[m..m + n], errors);
    AllResults(lifo[m..m + n], errors);
    RecordedResults(r.history, more);
    forall i | 0 <= i < n ensures IsResultOf(more[i], lifo[m + i]) {
      ResultTells(lifo[m + i], errors(lifo[m + i]));
    }
    forall i | 0 <= i < |r.compensations| && HasId(r.history + more, RecordId(r.compensations[i].id))
      ensures r.compensations[i].id in ExecutedIds(r.history + more)
    {
      RecordedReady(r.history, lifo[m..m + n], errors, r.compensations[i].id);
    }
  }

  lemma AllResults(entries: seq<Compensation>, errors: Compensation -> Option<string>)
    ensures forall i :: 0 <= i < |Recorded(entries, errors)| ==> IsResult(Recorded(entries, errors)[i])
  {
  }

  lemma RecordedResults(history: seq<Event>, more: seq<Event>)
    requires forall i :: 0 <= i < |more| ==> IsResult(more[i])
    ensures Results(history + more) == Results(history) + more
  {
    FilterConcat(history, more, IsResult);
    FilterAll(more, IsResult);
  }

  /** A record under a compensation's id, among old and new ones, is its result. */
  lemma RecordedReady(history: seq<Event>, entries: seq<Compensation>, errors: Compensation -> Option<string>, id: nat)
    requires HasId(history, RecordId(id)) ==> id in ExecutedIds(history)
    requires HasId(history + Recorded(entries, errors), RecordId(id))
    ensures id in ExecutedIds(history + Recorded(entries, errors))
  {
    var all := history + Recorded(entries, errors);
    var k :| 0 <= k < |all| && all[k].activityId == RecordId(id);
    if k < |history| {
      assert HasId(history, RecordId(id));
      var l :| 0 <= l < |history| && IsResult(history[l]) && history[l].data.compensationId == id;
      assert all[l] == history[l];
    } else if entries[k - |history|].id != id {
      RecordIdsDiffer(entries[k - |history|].id, id);
    }
  }

  // ---- Any number of interrupted passes ----

  /** A pass that dies after `cut` actions, if it has that many. */
  datatype Attempt = Attempt(errors: Compensation -> Option<string>, cut: nat)

  function Cut(r: Row, a: Attempt): (cut: nat)
    ensures cut <= |RollbackActions(r, a.errors)|
  {
    if a.cut <= |RollbackActions(r, a.errors)| then a.cut else |RollbackActions(r, a.errors)|
  }

  function Interrupted(r: Row, a: Attempt): Row {
    After(r, RollbackActions(r, a.errors), Cut(r, a))
  }

  function AfterAttempts(r: Row, attempts: seq<Attempt>): Row
    decreases |attempts|
  {
    if attempts == [] then r else AfterAttempts(Interrupted(r, attempts[0]), attempts[1..])
  }

  /** The compensation functions called, in order, as the ids of their records. */
  function CallLog(r: Row, attempts: seq<Attempt>): seq<string>
    decreases |attempts|
  {
    if attempts == [] then []
    else
      CallsOf(RollbackActions(r, attempts[0].errors)[..Cut(r, attempts[0])])
      + CallLog(Interrupted(r, attempts[0]), attempts[1..])
  }

  /** One entry per attempt that died between a call and its record: the call then in flight. */
  function InFlight(r: Row, attempts: seq<Attempt>): multiset<string>
    decreases |attempts|
  {
    if attempts == [] then multiset{}
    else
      var cut, all := Cut(r, attempts[0]), RollbackActions(r, attempts[0].errors);
      (if cut > 0 && all[cut - 1].Call? then multiset{all[cut - 1].id} else multiset{})
      + InFlight(Interrupted(r, attempts[0]), attempts[1..])
  }

  lemma {:induction false} CallsSnoc(actions: seq<Action>, a: Action)
    ensures CallsOf(actions + [a]) == CallsOf(actions) + (if a.Call? then [a.id] else [])
  {
    if actions == [] {
      assert [] + [a] == [a] && [a][1..] == [];
    } else {
      CallsSnoc(actions[1..], a);
      assert (actions + [a])[1..] == actions[1..] + [a];
    }
  }

  /** One more action is a call exactly if it makes one more id appear. */
  lemma OneMoreCall(actions: seq<Action>, cut: nat, ids: seq<string>)
    requires 0 < cut <= |actions|
    requires cut / 2 <= |ids| && CallsOf(actions[..cut - 1]) == ids[..cut / 2]
    requires (cut + 1) / 2 <= |ids| && CallsOf(actions[..cut]) == ids[..(cut + 1) / 2]
    ensures multiset(CallsOf(actions[..cut])) ==
            multiset(ids[..cut / 2])
            + (if actions[cut - 1].Call? then multiset{actions[cut - 1].id} else multiset{})
  {
    hide CallsOf;
    assert actions[..cut] == actions[..cut - 1] + [actions[cut - 1]];
    CallsSnoc(actions[..cut - 1], actions[cut - 1]);
    if !actions[cut - 1].Call? {
      assert |ids[..(cut + 1) / 2]| == |ids[..cut / 2]|;
    }
  }

  lemma IdsFrom(entries: seq<Compensation>, m: nat, n: nat)
    requires m + n <= |entries|
    ensures Ids(entries[m..m + n]) == Ids(entries[m..])[..n]
  {
  }

  lemma PassCalls(r: Row, m: nat, errors: Compensation -> Option<string>, cut: nat)
    requires Ready(r) && Done(r, m) && cut <= |RollbackActions(r, errors)|
    ensures m <= |Lifo(r.compensations)|
    ensures var ids := Ids(Lifo(r.compensations)[m..]);
            && cut / 2 <= (cut + 1) / 2 <= |ids|
            && CallsOf(RollbackActions(r, errors)[..cut]) == ids[..(cut + 1) / 2]
  {
    hide Lifo, Ready, Done, RollbackActions, CallsOf, Ids, After, Recorded;
    DoneBound(r, m);
    PassContinues(r, m, errors, cut);
    IdsFrom(Lifo(r.compensations), m, (cut + 1) / 2);
  }

  /** The calls of a pass are those of the entries it records, and the one in flight. */
  lemma OneInFlight(r: Row, m: nat, a: Attempt)
    requires Ready(r) && Done(r, m)
    ensures var lifo, cut, all := Lifo(r.compensations), Cut(r, a), RollbackActions(r, a.errors);
            && m + cut / 2 <= |lifo|
            && multiset(CallsOf(all[..cut])) ==
                 multiset(Ids(lifo[m..m + cut / 2]))
                 + (if cut > 0 && all[cut - 1].Call? then multiset{all[cut - 1].id} else multiset{})
  {
    hide Lifo, Ready, Done, RollbackActions, CallsOf, Ids, After, Recorded;
    var lifo, cut, all := Lifo(r.compensations), Cut(r, a), RollbackActions(r, a.errors);
    PassCalls(r, m, a.errors, cut);
    IdsFrom(lifo, m, cut / 2);
    if cut > 0 {
      PassCalls(r, m, a.errors, cut - 1);
      OneMoreCall(all, cut, Ids(lifo[m..]));
    }
  }

  function Progress(r: Row, m: nat, attempts: seq<Attempt>): nat
    decreases |attempts|
  {
    if attempts == [] then m
    else Progress(Interrupted(r, attempts[0]), m + Cut(r, attempts[0]) / 2, attempts[1..])
  }

  lemma IdsSplit(entries: seq<Compensation>, a: nat, b: nat, c: nat)
    requires a <= b <= c <= |entries|
    ensures multiset(Ids(entries[a..c])) == multiset(Ids(entries[a..b])) + multiset(Ids(entries[b..c]))
  {
    assert Ids(entries[a..c]) == Ids(entries[a..b]) + Ids(entries[b..c]);
  }

  lemma OneAttempt(r: Row, m: nat, a: Attempt)
    requires Ready(r) && Done(r, m)
    ensures var r', m' := Interrupted(r, a), m + Cut(r, a) / 2;
            && Ready(r') && Done(r', m') && m <= m' <= |Lifo(r.compensations)|
            && r.history <= r'.history && r' == r.(history := r'.history)
            && multiset(CallsOf(RollbackActions(r, a.errors)[..Cut(r, a)])) ==
                 multiset(Ids(Lifo(r.compensations)[m..m']))
                 + InFlight(r, [a])
  {
    hide Lifo, Ready, Done, RollbackActions, CallsOf, Ids, After, Results, Cut, Recorded, DistinctIds, InFlight;
    PassContinues(r, m, a.errors, Cut(r, a));
    DoneBound(r, m);
    DoneBound(Interrupted(r, a), m + Cut(r, a) / 2);
    OneInFlight(r, m, a);
    InFlightOne(r, a);
  }

  lemma InFlightOne(r: Row, a: Attempt)
    ensures var cut, all := Cut(r, a), RollbackActions(r, a.errors);
            InFlight(r, [a]) == if cut > 0 && all[cut - 1].Call? then multiset{all[cut - 1].id} else multiset{}
  {
    hide RollbackActions, After;
    assert InFlight(Interrupted(r, a), [a][1..]) == multiset{};
  }

  lemma FlightCons(r: Row, attempts: seq<Attempt>)
    requires attempts != []
    ensures InFlight(r, attempts) ==
            InFlight(r, [attempts[0]]) + InFlight(Interrupted(r, attempts[0]), attempts[1..])
  {
    assert InFlight(Interrupted(r, attempts[0]), [attempts[0]][1..]) == multiset{};
  }

  /** Attempts only ever add results to the history, in LIFO order, each once. */
  lemma {:induction false} AttemptsContinue(r: Row, m: nat, attempts: seq<Attempt>)
    requires Ready(r) && Done(r, m)
    ensures var r', m' := AfterAttempts(r, attempts), Progress(r, m, attempts);
            && Ready(r') && Done(r', m') && m <= m' <= |Lifo(r.compensations)|
            && r.history <= r'.history && r' == r.(history := r'.history)
            && multiset(CallLog(r, attempts)) ==
                 multiset(Ids(Lifo(r.compensations)[m..m'])) + InFlight(r, attempts)
    decreases |attempts|
  {
    hide Lifo, Ready, Done, RollbackActions, CallsOf, Ids, After, Results, Interrupted, Cut, InFlight, DistinctIds,
         Recorded,
         CallLog, AfterAttempts, Progress;
    DoneBound(r, m);
    if attempts == [] {
      NoAttempts(r, m);
      assert |Ids(Lifo(r.compensations)[m..m])| == 0;
      NoneInFlight(r);
    } else {
      var a, rest := attempts[0], attempts[1..];
      var next, mid := Interrupted(r, a), m + Cut(r, a) / 2;
      FirstAttempt(r, m, attempts);
      OneAttempt(r, m, a);
      AttemptsContinue(next, mid, rest);
      CallsAdd(r, m, mid, Progress(next, mid, rest), attempts);
    }
  }

  /** The calls of the first attempt and those of the others. */
  lemma CallsAdd(r: Row, m: nat, mid: nat, end: nat, attempts: seq<Attempt>)
    requires attempts != [] && m <= mid <= end <= |Lifo(r.compensations)|
    requires var a, lifo := attempts[0], Lifo(r.compensations);
             multiset(CallsOf(RollbackActions(r, a.errors)[..Cut(r, a)])) == multiset(Ids(lifo[m..mid])) + InFlight(r, [a])
    requires var next, lifo := Interrupted(r, attempts[0]), Lifo(r.compensations);
             multiset(CallLog(next, attempts[1..])) == multiset(Ids(lifo[mid..end])) + InFlight(next, attempts[1..])
    ensures multiset(CallLog(r, attempts)) == multiset(Ids(Lifo(r.compensations)[m..end])) + InFlight(r, attempts)
  {
    hide Lifo, RollbackActions, CallsOf, Ids, Interrupted, Cut, InFlight, CallLog, AfterAttempts, Progress;
    var a, rest, lifo := attempts[0], attempts[1..], Lifo(r.compensations);
    FirstAttempt(r, 0, attempts);
    IdsSplit(lifo, m, mid, end);
    FlightCons(r, attempts);
    SumsAdd(multiset(Ids(lifo[m..mid])), InFlight(r, [a]), multiset(Ids(lifo[mid..end])), InFlight(Interrupted(r, a), rest));
  }

  lemma SumsAdd(a: multiset<string>, f: multiset<string>, b: multiset<string>, g: multiset<string>)
    ensures (a + f) + (b + g) == (a + b) + (f + g)
  {
  }

  lemma NoAttempts(r: Row, m: nat)
    ensures AfterAttempts(r, []) == r && Progress(r, m, []) == m && CallLog(r, []) == []
  {
  }

  lemma FirstAttempt(r: Row, m: nat, attempts: seq<Attempt>)
    requires attempts != []
    ensures var a, rest := attempts[0], attempts[1..];
            && AfterAttempts(r, attempts) == AfterAttempts(Interrupted(r, a), rest)
            && Progress(r, m, attempts) == Progress(Interrupted(r, a), m + Cut(r, a) / 2, rest)
            && multiset(CallLog(r, attempts)) ==
                 multiset(CallsOf(RollbackActions(r, a.errors)[..Cut(r, a)])) + multiset(CallLog(Interrupted(r, a), rest))
  {
  }

  lemma NoneInFlight(r: Row)
    ensures InFlight(r, []) == multiset{}
  {
  }

  // ---- What the results say ----

  /** In one of the attempts the compensation failed, or did not, as `e` says. */
  ghost predicate ToldBy(e: Event, attempts: seq<Attempt>, entry: Compensation) {
    exists k :: 0 <= k < |attempts| && Tells(e, attempts[k].errors(entry))
  }

  lemma ToldLater(e: Event, before: seq<Attempt>, attempts: seq<Attempt>, after: seq<Attempt>, entry: Compensation)
    requires ToldBy(e, attempts, entry)
    ensures ToldBy(e, before + attempts + after, entry)
  {
    hide Tells;
    var k :| 0 <= k < |attempts| && Tells(e, attempts[k].errors(entry));
    assert (before + attempts + after)[|before| + k] == attempts[k];
  }

  /** One attempt's results tell what its compensations failed with, and the earlier ones stay. */
  lemma AttemptTells(r: Row, m: nat, a: Attempt)
    requires Ready(r) && Done(r, m)
    ensures var r', m', lifo := Interrupted(r, a), m + Cut(r, a) / 2, Lifo(r.compensations);
            && Ready(r') && Done(r', m') && r'.compensations == r.compensations && m <= m' <= |lifo|
            && |Results(r'.history)| == m' && |Results(r.history)| == m
            && (forall i :: 0 <= i < m ==> Results(r'.history)[i] == Results(r.history)[i])
            && (forall i :: m <= i < m' ==> Tells(Results(r'.history)[i], a.errors(lifo[i])))
  {
    hide Lifo, Ready, RollbackActions, CallsOf, Ids, After, Results, Cut, ResultEvent, Tells, IsResult;
    var lifo, n := Lifo(r.compensations), Cut(r, a) / 2;
    PassContinues(r, m, a.errors, Cut(r, a));
    var more := Recorded(lifo[m..m + n], a.errors);
    AllResults(lifo[m..m + n], a.errors);
    RecordedResults(r.history, more);
    forall i | m <= i < m + n ensures Tells(Results(r.history + more)[i], a.errors(lifo[i])) {
      assert Results(r.history + more)[i] == more[i - m] && lifo[m..m + n][i - m] == lifo[i];
      ResultTells(lifo[i], a.errors(lifo[i]));
    }
  }

  lemma {:induction false} AttemptsTell(r: Row, m: nat, attempts: seq<Attempt>)
    requires Ready(r) && Done(r, m)
    ensures var r', m', lifo := AfterAttempts(r, attempts), Progress(r, m, attempts), Lifo(r.compensations);
            && Ready(r') && Done(r', m') && r'.compensations == r.compensations && m <= m' <= |lifo|
            && |Results(r'.history)| == m' && |Results(r.history)| == m
            && (forall i :: 0 <= i < m ==> Results(r'.history)[i] == Results(r.history)[i])
            && (forall i :: m <= i < m' ==> ToldBy(Results(r'.history)[i], attempts, lifo[i]))
    decreases |attempts|
  {
    hide Lifo, Ready, RollbackActions, Results, Cut, Tells, IsResult, Interrupted;
    DoneBound(r, m);
    if attempts != [] {
      var a, rest := attempts[0], attempts[1..];
      assert attempts == [a] + rest;
      var lifo, mid, next := Lifo(r.compensations), m + Cut(r, a) / 2, Interrupted(r, a);
      AttemptTells(r, m, a);
      AttemptsTell(next, mid, rest);
      var r', m' := AfterAttempts(r, attempts), Progress(r, m, attempts);
      forall i | m <= i < m' ensures ToldBy(Results(r'.history)[i], attempts, lifo[i]) {
        if i < mid {
          assert Tells(Results(r'.history)[i], attempts[0].errors(lifo[i]));
        } else {
          ToldLater(Results(r'.history)[i], [a], rest, [], lifo[i]);
          assert [a] + rest + [] == attempts;
        }
      }
    }
  }

  /** After any number of interrupted attempts, one more that runs to its end. */
  function Finished(r: Row, attempts: seq<Attempt>, errors: Compensation -> Option<string>): Row {
    var r' := AfterAttempts(r, attempts);
    ApplyAll(r', RollbackActions(r', errors))
  }

  function AllCalls(r: Row, attempts: seq<Attempt>, errors: Compensation -> Option<string>): seq<string> {
    CallLog(r, attempts) + CallsOf(RollbackActions(AfterAttempts(r, attempts), errors))
  }

  lemma LastPass(r: Row, m: nat, errors: Compensation -> Option<string>)
    requires Ready(r) && Done(r, m)
    ensures var r' := ApplyAll(r, RollbackActions(r, errors));
            && Ready(r') && Done(r', |Lifo(r.compensations)|)
            && r.history <= r'.history && r' == r.(history := r'.history)
            && CallsOf(RollbackActions(r, errors)) == Ids(Lifo(r.compensations)[m..])
  {
    hide Lifo, CallsOf, Ids, Results, ApplyAll, PassActions;
    var all := RollbackActions(r, errors);
    PassContinues(r, m, errors, 0);
    PassContinues(r, m, errors, |all|);
    assert all[..|all|] == all;
    var lifo := Lifo(r.compensations);
    assert lifo[m..|lifo|] == lifo[m..];
    PassOutside(r, lifo, ExecutedIds(r.history), errors);
  }

  /** A pass opens no transaction. */
  lemma {:induction false} PassOutside(
    r: Row, entries: seq<Compensation>, executed: set<nat>, errors: Compensation -> Option<string>)
    requires r.tx.None?
    ensures ApplyAll(r, PassActions(entries, executed, errors)).tx.None?
    decreases |entries|
  {
    hide ApplyAll;
    ApplyNone(r);
    if entries != [] {
      var rest := PassActions(entries[1..], executed, errors);
      var first := PassPair(entries[0], errors);
      if entries[0].id in executed {
        assert PassActions(entries, executed, errors) == rest;
        PassOutside(r, entries[1..], executed, errors);
      } else {
        assert PassActions(entries, executed, errors) == first + rest;
        ApplyConcat(r, first, rest);
        ApplyPair(r, first[0], first[1]);
        PassOutside(ApplyAll(r, first), entries[1..], executed, errors);
      }
    }
  }

  /**
   * Saga rollback survives crashes.  However many rollbacks were interrupted, wherever, and
   * whatever failed in them: after a full one the history has exactly one result for every
   * registered compensation, in LIFO order, and nothing else changed; each result is a failure with
   * the error, or a success without one, just as the compensation ended in one of the attempts;
   * each compensation was called once, and once more for every time it was in flight at a crash;
   * and another pass does nothing.
   */
  lemma RollbackSurvivesCrashes(r: Row, attempts: seq<Attempt>, errors: Compensation -> Option<string>)
    requires Ready(r) && Results(r.history) == []
    ensures var r', lifo := Finished(r, attempts, errors), Lifo(r.compensations);
            && |Results(r'.history)| == |lifo|
            && (forall i :: 0 <= i < |lifo| ==> IsResultOf(Results(r'.history)[i], lifo[i]))
            && (forall i :: 0 <= i < |lifo| ==> ToldBy(Results(r'.history)[i], attempts + [Attempt(errors, 0)], lifo[i]))
            && r.history <= r'.history && r' == r.(history := r'.history)
            && multiset(AllCalls(r, attempts, errors)) == multiset(Ids(lifo)) + InFlight(r, attempts)
            && forall errors' :: RollbackActions(r', errors') == []
  {
    hide Lifo, Ready, RollbackActions, CallsOf, Ids, Results, ApplyAll, CallLog, InFlight, ToldBy;
    var lifo := Lifo(r.compensations);
    assert Done(r, 0);
    AttemptsContinue(r, 0, attempts);
    var before, m := AfterAttempts(r, attempts), Progress(r, 0, attempts);
    LastPass(before, m, errors);
    IdsSplit(lifo, 0, m, |lifo|);
    assert lifo[0..|lifo|] == lifo && lifo[m..|lifo|] == lifo[m..];
    var r' := Finished(r, attempts, errors);
    FinishedTells(r, attempts, errors);
    forall errors' ensures RollbackActions(r', errors') == [] {
      PassContinues(r', |lifo|, errors', 0);
    }
  }

  /** Every result of a finished rollback tells how its compensation ended in one of the attempts. */
  lemma FinishedTells(r: Row, attempts: seq<Attempt>, errors: Compensation -> Option<string>)
    requires Ready(r) && Results(r.history) == []
    ensures var r', lifo := Finished(r, attempts, errors), Lifo(r.compensations);
            && |Results(r'.history)| == |lifo|
            && forall i :: 0 <= i < |lifo| ==> ToldBy(Results(r'.history)[i], attempts + [Attempt(errors, 0)], lifo[i])
  {
    hide Lifo, Ready, RollbackActions, Results, ApplyAll, Tells, CallsOf, Ids, AfterAttempts, Progress, ToldBy,
         Interrupted;
    var lifo, before, m := Lifo(r.compensations), AfterAttempts(r, attempts), Progress(r, 0, attempts);
    assert Done(r, 0);
    AttemptsTell(r, 0, attempts);
    LastPass(before, m, errors);
    ReadyOpen(ApplyAll(before, RollbackActions(before, errors)));
    LastIsWhole(before, errors);
    AttemptTells(before, m, Attempt(errors, |RollbackActions(before, errors)|));
    var r', last := Finished(r, attempts, errors), Attempt(errors, 0);
    forall i | 0 <= i < |lifo| ensures ToldBy(Results(r'.history)[i], attempts + [last], lifo[i]) {
      if i < m {
        ToldLater(Results(r'.history)[i], [], attempts, [last], lifo[i]);
        assert [] + attempts + [last] == attempts + [last];
      } else {
        ToldAtLast(Results(r'.history)[i], attempts, last, lifo[i]);
      }
    }
  }

  lemma ToldAtLast(e: Event, attempts: seq<Attempt>, last: Attempt, entry: Compensation)
    requires Tells(e, last.errors(entry))
    ensures ToldBy(e, attempts + [last], entry)
  {
    hide Tells;
    assert (attempts + [last])[|attempts|] == last;
  }

  /** An attempt that is not cut is a full pass. */
  lemma LastIsWhole(r: Row, errors: Compensation -> Option<string>)
    requires ApplyAll(r, RollbackActions(r, errors)).tx.None?
    ensures Interrupted(r, Attempt(errors, |RollbackActions(r, errors)|)) == ApplyAll(r, RollbackActions(r, errors))
  {
    hide RollbackActions, ApplyAll;
    var all := RollbackActions(r, errors);
    assert all[..|all|] == all;
  }

  /** The calls of an entry: once, and once per crash that met it in flight. */
  lemma CalledOncePlusInFlight(r: Row, attempts: seq<Attempt>, errors: Compensation -> Option<string>, i: nat)
    requires Ready(r) && Results(r.history) == [] && i < |r.compensations|
    ensures var id := RecordId(r.compensations[i].id);
            multiset(AllCalls(r, attempts, errors))[id] == 1 + InFlight(r, attempts)[id]
  {
    hide AllCalls, InFlight;
    RollbackSurvivesCrashes(r, attempts, errors);
    var lifo := Lifo(r.compensations);
    LifoKeepsIdsDistinct(r.compensations);
    assert r.compensations[i] in multiset(lifo);
    var k :| 0 <= k < |lifo| && lifo[k] == r.compensations[i];
    forall a, b | 0 <= a < b < |lifo| ensures Ids(lifo)[a] != Ids(lifo)[b] {
      RecordIdsDiffer(lifo[a].id, lifo[b].id);
    }
    OnceInDistinct(Ids(lifo), k);
  }

  lemma OnceInDistinct(s: seq<string>, k: nat)
    requires k < |s| && forall a, b :: 0 <= a < b < |s| ==> s[a] != s[b]
    ensures multiset(s)[s[k]] == 1
  {
    assert s == s[..k] + [s[k]] + s[k + 1..];
    assert s[k] !in s[..k] && s[k] !in s[k + 1..];
  }

  /** Under a clock that never runs back, the results stand in reverse registration order. */
  lemma ResultsReverseRegistration(r: Row, attempts: seq<Attempt>, errors: Compensation -> Option<string>, i: nat)
    requires Ready(r) && Results(r.history) == [] && InClockOrder(r.compensations)
    requires i < |r.compensations|
    ensures var results := Results(Finished(r, attempts, errors).history);
            && |results| == |r.compensations|
            && results[i].data.compensationId == r.compensations[|r.compensations| - 1 - i].id
  {
    hide Finished, AllCalls, InFlight, RollbackActions, Lifo, Results, Ids, Ready, InClockOrder, IsResult, RecordId;
    RollbackSurvivesCrashes(r, attempts, errors);
    LifoReversesRegistration(r.compensations);
  }
}
