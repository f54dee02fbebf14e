/**
 * Workflow code and its reference meaning.
 *
 * Workflow code is deterministic: what it does next depends only on the outcomes it has
 * seen.  So a workflow is a function from those outcomes to its next call.
 */
module Workflows {
  import opened Prelude
  import opened ActivityIds
  import opened Tables

  datatype Call =
    | Activity(name: string, transactional: bool, compensated: bool)
    | Sleep(duration: nat)
    | WaitEvent(channel: string, timeout: Option<nat>)
    | Return(value: string)
    | Fail(message: string)
    | Recur(input: string)

  type Workflow = seq<Outcome> -> Call

  predicate Ends(c: Call) {
    c.Return? || c.Fail? || c.Recur?
  }

  /** The function name under which a call generates its activity id. */
  function NameOf(c: Call): string
    requires !Ends(c)
  {
    match c
    case Activity(name, _, _) => name
    case Sleep(_) => "sleep"
    case WaitEvent(channel, _) => "receive_" + channel
  }

  /** How often a call bumps the counter of `name`: waiting also subscribes. */
  function Bumps(c: Call, name: string): nat {
    if Ends(c) then 0
    else
      (if NameOf(c) == name then 1 else 0) +
      (if c.WaitEvent? && "subscribe_" + c.channel == name then 1 else 0)
  }

  /** The counter of `name` after the calls that led to the outcomes `seen`. */
  function Counter(wf: Workflow, seen: seq<Outcome>, name: string): nat {
    if seen == [] then 0
    else Counter(wf, seen[..|seen| - 1], name) + Bumps(wf(seen[..|seen| - 1]), name)
  }

  /** The id of the call a workflow makes once it has seen `seen`. */
  function IdOf(wf: Workflow, seen: seq<Outcome>): string
    requires !Ends(wf(seen))
  {
    Render(NameOf(wf(seen)), Counter(wf, seen, NameOf(wf(seen))) + 1)
  }

  lemma {:induction false} CounterGrows(wf: Workflow, seen: seq<Outcome>, i: nat, name: string)
    requires i < |seen|
    ensures Counter(wf, seen[..i], name) + Bumps(wf(seen[..i]), name) <= Counter(wf, seen, name)
  {
    var init := seen[..|seen| - 1];
    if i < |init| {
      CounterGrows(wf, init, i, name);
      assert init[..i] == seen[..i];
    } else {
      assert seen[..i] == init;
    }
  }

  /** No two calls of one execution share an id. */
  lemma IdsDiffer(wf: Workflow, seen: seq<Outcome>, i: nat, j: nat)
    requires i < j <= |seen|
    requires !Ends(wf(seen[..i])) && !Ends(wf(seen[..j]))
    ensures IdOf(wf, seen[..i]) != IdOf(wf, seen[..j])
  {
    var ni, nj := NameOf(wf(seen[..i])), NameOf(wf(seen[..j]));
    var ci, cj := Counter(wf, seen[..i], ni), Counter(wf, seen[..j], nj);
    if Render(ni, ci + 1) == Render(nj, cj + 1) {
      RenderInjective(ni, ci + 1, nj, cj + 1);
      assert seen[..j][..i] == seen[..i];
      CounterGrows(wf, seen[..j], i, ni);
    }
  }

  // ---- Recorded outcomes ----

  /** The event types that executeWorkflow turns into cache entries. */
  predicate Cacheable(e: Event) {
    e.kind.ActivityCompleted? || e.kind.ActivityFailed? ||
    e.kind.ChannelMessageReceived? || e.kind.MessageTimeout?
  }

  /** The ids under which messages are recorded that no receive asked for. */
  predicate Unclaimed(id: string) {
    "channel:" <= id
  }

  /** An outcome of a call, as opposed to any other record: compensation, failure, recur, stray message. */
  predicate IsOutcome(e: Event) {
    Cacheable(e) && e.activityId != "recur" && !Unclaimed(e.activityId)
  }

  function Text(p: Payload): string {
    if p.Json? then p.text else p.error
  }

  function OutcomeOf(e: Event): Outcome {
    if e.kind.ActivityFailed? || e.kind.MessageTimeout? then Err(Text(e.data)) else Ok(Text(e.data))
  }

  /** The outcome records of a history, in order. */
  function Outcomes(history: seq<Event>): seq<Event> {
    Filter(history, IsOutcome)
  }

  /** What workflow code has seen once it has passed all of `records`. */
  function Outs(records: seq<Event>): (outs: seq<Outcome>)
    ensures |outs| == |records|
    ensures forall i :: 0 <= i < |records| ==> outs[i] == OutcomeOf(records[i])
  {
    seq(|records|, i requires 0 <= i < |records| => OutcomeOf(records[i]))
  }

  /** The replay cache executeWorkflow builds; a later event overwrites an earlier one. */
  function CacheOf(history: seq<Event>): map<string, Outcome> {
    if history == [] then map[]
    else
      var cache, e := CacheOf(history[..|history| - 1]), history[|history| - 1];
      if Cacheable(e) then cache[e.activityId := OutcomeOf(e)] else cache
  }

  lemma CacheSnoc(history: seq<Event>, e: Event)
    ensures CacheOf(history + [e]) ==
            if Cacheable(e) then CacheOf(history)[e.activityId := OutcomeOf(e)] else CacheOf(history)
  {
    assert (history + [e])[..|history|] == history;
  }

  /** Over a history without repeated ids, the cache holds exactly its cacheable events. */
  lemma {:induction false} CacheIsHistory(history: seq<Event>)
    requires UniqueIds(history)
    ensures forall i :: 0 <= i < |history| && Cacheable(history[i]) ==>
              && history[i].activityId in CacheOf(history)
              && CacheOf(history)[history[i].activityId] == OutcomeOf(history[i])
    ensures forall id :: id in CacheOf(history) ==>
              exists i :: 0 <= i < |history| && Cacheable(history[i]) && history[i].activityId == id
  {
    if history != [] {
      var init, e := history[..|history| - 1], history[|history| - 1];
      CacheIsHistory(init);
      forall id | id in CacheOf(history)
        ensures exists i :: 0 <= i < |history| && Cacheable(history[i]) && history[i].activityId == id
      {
        if id in CacheOf(init) {
          var i :| 0 <= i < |init| && Cacheable(init[i]) && init[i].activityId == id;
          assert history[i] == init[i];
        } else {
          assert history[|history| - 1].activityId == id;
        }
      }
      forall i | 0 <= i < |history| && Cacheable(history[i])
        ensures history[i].activityId in CacheOf(history)
        ensures CacheOf(history)[history[i].activityId] == OutcomeOf(history[i])
      {
        if i < |init| {
          assert init[i] == history[i];
        }
      }
    }
  }

  /**
   * What the cache answers with: for a completed activity and a received message their text as a
   * result, for a failed activity and a timeout theirs as an error, and nothing for other records.
   */
  lemma CacheByKind(history: seq<Event>, i: nat)
    requires UniqueIds(history) && i < |history| && history[i].data.Json?
    ensures var id, kind, text := history[i].activityId, history[i].kind, history[i].data.text;
            && (kind == ActivityCompleted || kind == ChannelMessageReceived ==>
                  id in CacheOf(history) && CacheOf(history)[id] == Ok(text))
            && (kind == ActivityFailed || kind == MessageTimeout ==>
                  id in CacheOf(history) && CacheOf(history)[id] == Err(text))
            && (kind == CompensationExecuted || kind == CompensationFailed || kind == WorkflowFailed ==>
                  id !in CacheOf(history))
  {
    CacheIsHistory(history);
  }

  /** What a call makes of its entry in the cache: a sleep hands back nothing. */
  function CachedOutcome(c: Call, cached: Outcome): Outcome {
    if c.Sleep? then Ok("") else cached
  }

  // ---- The reference meaning: one run that is never interrupted ----

  /**
   * What workflow code has seen after `calls` calls, each answered by `oracle`.  No history,
   * no cache, no crash.
   */
  function Uninterrupted(wf: Workflow, oracle: string -> Outcome, calls: nat): seq<Outcome> {
    if calls == 0 then []
    else
      var seen := Uninterrupted(wf, oracle, calls - 1);
      if Ends(wf(seen)) then seen else seen + [CachedOutcome(wf(seen), oracle(IdOf(wf, seen)))]
  }

  /** What kinds of outcome a call can have; a sleep hands back nothing. */
  predicate Fits(c: Call, e: Event) {
    match c
    case Activity(_, _, _) => e.kind.ActivityCompleted? || e.kind.ActivityFailed?
    case Sleep(_) => e.kind.ActivityCompleted? && OutcomeOf(e) == Ok("")
    case WaitEvent(_, _) => e.kind.ActivityCompleted? || e.kind.ChannelMessageReceived? || e.kind.MessageTimeout?
    case _ => false
  }

  /** Record number j answers the call the workflow makes after seeing records 0 to j - 1. */
  ghost predicate Answers(wf: Workflow, records: seq<Event>, j: nat)
    requires j < |records|
  {
    var seen := Outs(records)[..j];
    && !Ends(wf(seen))
    && records[j].activityId == IdOf(wf, seen)
    && Fits(wf(seen), records[j])
  }

  /** The records are, one by one, the answers to the calls the workflow makes. */
  ghost predicate IsRun(wf: Workflow, records: seq<Event>) {
    forall j :: 0 <= j < |records| ==> Answers(wf, records, j)
  }

  ghost predicate Agrees(oracle: string -> Outcome, records: seq<Event>) {
    forall i :: 0 <= i < |records| ==> oracle(records[i].activityId) == OutcomeOf(records[i])
  }

  /** The uninterrupted run, fed with recorded outcomes, sees exactly those, in that order. */
  lemma {:induction false} RunIsUninterrupted(
    wf: Workflow, oracle: string -> Outcome, records: seq<Event>, calls: nat)
    requires IsRun(wf, records) && Agrees(oracle, records) && calls <= |records|
    ensures Uninterrupted(wf, oracle, calls) == Outs(records)[..calls]
  {
    hide IdOf, Outs;
    if calls > 0 {
      RunIsUninterrupted(wf, oracle, records, calls - 1);
      assert Answers(wf, records, calls - 1);
    }
  }

  lemma {:induction false} UninterruptedStays(
    wf: Workflow, oracle: string -> Outcome, calls: nat, more: nat)
    requires Ends(wf(Uninterrupted(wf, oracle, calls))) && calls <= more
    ensures Uninterrupted(wf, oracle, more) == Uninterrupted(wf, oracle, calls)
  {
    hide IdOf, CachedOutcome;
    if calls < more {
      UninterruptedStays(wf, oracle, calls, more - 1);
    }
  }

  lemma RunSnoc(wf: Workflow, records: seq<Event>, e: Event)
    requires IsRun(wf, records)
    requires !Ends(wf(Outs(records))) && e.activityId == IdOf(wf, Outs(records)) && Fits(wf(Outs(records)), e)
    ensures IsRun(wf, records + [e])
  {
    var all := records + [e];
    forall j | 0 <= j < |all| ensures Answers(wf, all, j) {
      assert Outs(all)[..j] == Outs(records)[..j];
      if j < |records| {
        assert Answers(wf, records, j);
      } else {
        assert Outs(all)[..j] == Outs(records);
      }
    }
  }

  /** One more record continues the run exactly if it answers the next call. */
  lemma RunGoesOnExactly(wf: Workflow, records: seq<Event>, e: Event)
    requires IsRun(wf, records)
    ensures IsRun(wf, records + [e]) <==>
            !Ends(wf(Outs(records))) && e.activityId == IdOf(wf, Outs(records)) && Fits(wf(Outs(records)), e)
  {
    hide IdOf, Fits;
    assert Outs(records + [e])[..|records|] == Outs(records);
    if IsRun(wf, records + [e]) {
      assert Answers(wf, records + [e], |records|);
    }
    if !Ends(wf(Outs(records))) && e.activityId == IdOf(wf, Outs(records)) && Fits(wf(Outs(records)), e) {
      RunSnoc(wf, records, e);
    }
  }

  /** The id of the next call differs from every id recorded before. */
  lemma NextIdIsNew(wf: Workflow, records: seq<Event>, j: nat)
    requires IsRun(wf, records) && j < |records|
    requires !Ends(wf(Outs(records)))
    ensures records[j].activityId != IdOf(wf, Outs(records))
  {
    assert Answers(wf, records, j);
    assert Outs(records)[..|records|] == Outs(records);
    IdsDiffer(wf, Outs(records), j, |records|);
  }

  // ---- Runs fed from a cache, in whatever order its entries came ----

  /** Outcome number j is what the cache answers call number j with. */
  ghost predicate FedAt(wf: Workflow, cache: map<string, Outcome>, seen: seq<Outcome>, j: nat)
    requires j < |seen|
  {
    var c := wf(seen[..j]);
    && !Ends(c) && IdOf(wf, seen[..j]) in cache
    && seen[j] == CachedOutcome(c, cache[IdOf(wf, seen[..j])])
  }

  /** Workflow code comes to see `seen` when the cache answers every call. */
  ghost predicate Fed(wf: Workflow, cache: map<string, Outcome>, seen: seq<Outcome>) {
    forall j :: 0 <= j < |seen| ==> FedAt(wf, cache, seen, j)
  }

  /** The second cache has all entries of the first, and may have more. */
  ghost predicate Extends(cache: map<string, Outcome>, cache': map<string, Outcome>) {
    forall id :: id in cache ==> id in cache' && cache'[id] == cache[id]
  }

  lemma FedExtends(wf: Workflow, cache: map<string, Outcome>, cache': map<string, Outcome>, seen: seq<Outcome>)
    requires Fed(wf, cache, seen) && Extends(cache, cache')
    ensures Fed(wf, cache', seen)
  {
    hide IdOf;
    forall j | 0 <= j < |seen| ensures FedAt(wf, cache', seen, j) {
      assert FedAt(wf, cache, seen, j);
    }
  }

  lemma FedSnoc(wf: Workflow, cache: map<string, Outcome>, seen: seq<Outcome>, o: Outcome)
    requires Fed(wf, cache, seen) && !Ends(wf(seen)) && IdOf(wf, seen) in cache
    requires o == CachedOutcome(wf(seen), cache[IdOf(wf, seen)])
    ensures Fed(wf, cache, seen + [o])
  {
    hide IdOf;
    var all := seen + [o];
    forall j | 0 <= j < |all| ensures FedAt(wf, cache, all, j) {
      if j < |seen| {
        assert FedAt(wf, cache, seen, j);
        assert all[..j] == seen[..j];
      } else {
        assert all[..j] == seen;
      }
    }
  }

  ghost predicate Consults(oracle: string -> Outcome, cache: map<string, Outcome>) {
    forall id :: id in cache ==> oracle(id) == cache[id]
  }

  /** What the cache answers is what an oracle that agrees with it answers. */
  lemma {:induction false} FedIsUninterrupted(
    wf: Workflow, oracle: string -> Outcome, cache: map<string, Outcome>, seen: seq<Outcome>, calls: nat)
    requires Fed(wf, cache, seen) && Consults(oracle, cache) && calls <= |seen|
    ensures Uninterrupted(wf, oracle, calls) == seen[..calls]
  {
    hide IdOf;
    if calls > 0 {
      FedIsUninterrupted(wf, oracle, cache, seen, calls - 1);
      assert FedAt(wf, cache, seen, calls - 1);
    }
  }
}
