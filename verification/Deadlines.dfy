/** SleepUntil, which looks at the clock before it counts as a call. */
module Deadlines {
  import opened Prelude
  import opened ActivityIds
  import opened Tables
  import opened Workflows
  import opened Replay

  /**
   * The workflow code `base` with SleepUntil(t) put in after the outcomes `at`, as it behaves while
   * the clock reads `now`: once `t` is reached, SleepUntil returns without making a call.
   */
  function UntilAt(base: Workflow, at: seq<Outcome>, t: nat, now: nat): Workflow {
    (seen: seq<Outcome>) =>
      if now < t && at <= seen then
        if |seen| == |at| then Sleep(t - now) else base(at + seen[|at| + 1..])
      else base(seen)
  }

  /** What this code has seen when it makes the call that `base` makes after `at + more`. */
  function Position(at: seq<Outcome>, more: seq<Outcome>, t: nat, now: nat): seq<Outcome> {
    if now < t then (at + [Ok("")]) + more else at + more
  }

  /** The id of the SleepUntil where it makes a call, and of the first sleep after it. */
  function UntilId(base: Workflow, at: seq<Outcome>): string {
    Render("sleep", Counter(base, at, "sleep") + 1)
  }

  function NextSleepId(base: Workflow, at: seq<Outcome>): string {
    Render("sleep", Counter(base, at, "sleep") + 2)
  }

  /** From `at` to `at + more` the code calls nothing under the name of sleeps. */
  ghost predicate NoSleep(base: Workflow, at: seq<Outcome>, more: seq<Outcome>) {
    forall k :: 0 <= k < |more| ==> !Ends(base(at + more[..k])) && NameOf(base(at + more[..k])) != "sleep"
  }

  lemma SubscribingIsNoSleep(c: Call)
    requires !Ends(c) && NameOf(c) != "sleep"
    ensures Bumps(c, "sleep") == 0
  {
    if c.WaitEvent? {
      assert ("subscribe_" + c.channel)[1] == 'u' && "sleep"[1] == 'l';
    }
  }

  lemma SleepBumps(name: string, d: nat)
    ensures Bumps(Sleep(d), name) == if name == "sleep" then 1 else 0
  {
  }

  lemma {:induction false} SamePrefixCounts(wf: Workflow, wf': Workflow, seen: seq<Outcome>, name: string)
    requires forall k :: 0 <= k < |seen| ==> wf(seen[..k]) == wf'(seen[..k])
    ensures Counter(wf, seen, name) == Counter(wf', seen, name)
  {
    if seen != [] {
      var init := seen[..|seen| - 1];
      assert forall k :: 0 <= k < |init| ==> init[..k] == seen[..k];
      SamePrefixCounts(wf, wf', init, name);
    }
  }

  /** Up to `at` both make the same calls. */
  lemma SameBefore(base: Workflow, at: seq<Outcome>, t: nat, now: nat, name: string, j: nat)
    requires j <= |at|
    ensures j < |at| ==> UntilAt(base, at, t, now)(at[..j]) == base(at[..j])
    ensures Counter(UntilAt(base, at, t, now), at[..j], name) == Counter(base, at[..j], name)
  {
    var later := UntilAt(base, at, t, now);
    forall k | 0 <= k < j ensures later(at[..j][..k]) == base(at[..j][..k]) {
      assert at[..j][..k] == at[..k];
    }
    SamePrefixCounts(later, base, at[..j], name);
  }

  /** Behind a SleepUntil that is a call, the code makes the calls of `base`, with one sleep more. */
  lemma {:induction false} SameBehind(base: Workflow, at: seq<Outcome>, more: seq<Outcome>, t: nat, now: nat, name: string)
    requires now < t
    ensures var later, seen := UntilAt(base, at, t, now), (at + [Ok("")]) + more;
            && later(seen) == base(at + more)
            && Counter(later, seen, name) == Counter(base, at + more, name) + if name == "sleep" then 1 else 0
  {
    hide Bumps;
    var later, seen := UntilAt(base, at, t, now), (at + [Ok("")]) + more;
    assert seen[|at| + 1..] == more;
    var init := seen[..|seen| - 1];
    if more == [] {
      assert init == at && at[..|at|] == at && at + more == at;
      SameBefore(base, at, t, now, name, |at|);
      SleepBumps(name, t - now);
    } else {
      var more' := more[..|more| - 1];
      SameBehind(base, at, more', t, now, name);
      assert init == (at + [Ok("")]) + more';
      assert (at + more)[..|at + more| - 1] == at + more';
    }
  }

  lemma {:induction false} NoSleepCounts(base: Workflow, at: seq<Outcome>, more: seq<Outcome>)
    requires NoSleep(base, at, more)
    ensures Counter(base, at + more, "sleep") == Counter(base, at, "sleep")
  {
    hide Bumps;
    if more == [] {
      assert at + more == at;
    } else {
      var more' := more[..|more| - 1];
      assert forall k :: 0 <= k < |more'| ==> more'[..k] == more[..k];
      NoSleepCounts(base, at, more');
      assert (at + more)[..|at + more| - 1] == at + more';
      SubscribingIsNoSleep(base(at + more'));
    }
  }

  // ---- The sleep after a SleepUntil ----

  /** Before `t` the SleepUntil suspends until `t`, under an id a sleep of `base` could have. */
  lemma UntilSuspends(base: Workflow, at: seq<Outcome>, t: nat, cache: map<string, Outcome>, env: Env, fuel: nat)
    requires Fed(base, cache, at) && env.now < t && UntilId(base, at) !in cache && |at| < fuel
    ensures Exec(UntilAt(base, at, t, env.now), [], cache, env, fuel).end == SleepsUntil(UntilId(base, at), t)
  {
    hide Exec, Counter, Render, SeenBy;
    var later := UntilAt(base, at, t, env.now);
    FedBefore(base, cache, at, t, env.now);
    ExecAlong(later, cache, at, 0, env, fuel);
    SameBefore(base, at, t, env.now, "sleep", |at|);
    assert at[..|at|] == at && at[..0] == [];
    ExecStep(later, at, cache, env, fuel - |at|);
  }

  lemma FedBefore(base: Workflow, cache: map<string, Outcome>, at: seq<Outcome>, t: nat, now: nat)
    requires Fed(base, cache, at)
    ensures Fed(UntilAt(base, at, t, now), cache, at)
  {
    hide Counter, Render;
    var later := UntilAt(base, at, t, now);
    forall j | 0 <= j < |at| ensures FedAt(later, cache, at, j) {
      assert FedAt(base, cache, at, j);
      SameBefore(base, at, t, now, NameOf(base(at[..j])), j);
    }
  }

  /** After `t` the code is `base`. */
  lemma FedAfter(base: Workflow, cache: map<string, Outcome>, at: seq<Outcome>, seen: seq<Outcome>, t: nat, now: nat)
    requires Fed(base, cache, seen) && t <= now
    ensures Fed(UntilAt(base, at, t, now), cache, seen)
    ensures Counter(UntilAt(base, at, t, now), seen, "sleep") == Counter(base, seen, "sleep")
  {
    hide Counter, Render;
    var later := UntilAt(base, at, t, now);
    forall j | 0 <= j < |seen| ensures FedAt(later, cache, seen, j) {
      assert FedAt(base, cache, seen, j);
      SamePrefixCounts(later, base, seen[..j], NameOf(base(seen[..j])));
    }
    SamePrefixCounts(later, base, seen, "sleep");
  }

  /** Before `t` the record of the SleepUntil answers it, and the calls behind it keep their ids. */
  lemma FedBehind(
    base: Workflow, cache: map<string, Outcome>, at: seq<Outcome>, more: seq<Outcome>, t: nat, now: nat)
    requires Fed(base, cache, at + more) && NoSleep(base, at, more) && now < t && UntilId(base, at) in cache
    ensures Fed(UntilAt(base, at, t, now), cache, (at + [Ok("")]) + more)
  {
    hide Counter, Render;
    var later, all := UntilAt(base, at, t, now), (at + [Ok("")]) + more;
    assert forall j :: 0 <= j < |at| ==> (at + more)[..j] == at[..j];
    forall j | 0 <= j < |all| ensures FedAt(later, cache, all, j) {
      if j < |at| {
        assert FedAt(base, cache, at + more, j);
        assert all[..j] == at[..j];
        SameBefore(base, at, t, now, NameOf(base(at[..j])), j);
      } else if j == |at| {
        assert all[..j] == at == at[..j];
        SameBefore(base, at, t, now, "sleep", |at|);
      } else {
        FedOneBehind(base, cache, at, more, t, now, j - |at| - 1);
      }
    }
  }

  lemma FedOneBehind(
    base: Workflow, cache: map<string, Outcome>, at: seq<Outcome>, more: seq<Outcome>, t: nat, now: nat, k: nat)
    requires Fed(base, cache, at + more) && NoSleep(base, at, more) && now < t && k < |more|
    ensures FedAt(UntilAt(base, at, t, now), cache, (at + [Ok("")]) + more, |at| + 1 + k)
  {
    hide Counter, Render, UntilAt;
    assert FedAt(base, cache, at + more, |at| + k);
    assert (at + more)[..|at| + k] == at + more[..k];
    assert ((at + [Ok("")]) + more)[..|at| + 1 + k] == (at + [Ok("")]) + more[..k];
    SameBehind(base, at, more[..k], t, now, NameOf(base(at + more[..k])));
  }

  /**
   * The record of a SleepUntil answers the next sleep of the workflow, exactly if the execution
   * comes after `t`.  Take any workflow, any place for the SleepUntil whose completion is recorded,
   * and the first sleep behind it, which is not.  An execution that comes before `t` replays up to
   * that sleep and suspends on it.  One that comes at `t` or later is told that the sleep is over
   * and goes on at once, registering no timer for it.
   */
  lemma NextSleepIsSkippedExactly(
    base: Workflow, at: seq<Outcome>, more: seq<Outcome>, t: nat, cache: map<string, Outcome>, env: Env, fuel: nat)
    requires Fed(base, cache, at + more) && NoSleep(base, at, more) && base(at + more).Sleep?
    requires UntilId(base, at) in cache && NextSleepId(base, at) !in cache && |at + more| + 2 <= fuel
    ensures var later, seen := UntilAt(base, at, t, env.now), Position(at, more, t, env.now);
            var plan := Exec(later, [], cache, env, fuel);
            && later(seen) == base(at + more)
            && (env.now < t ==>
                  && Passive(plan.actions) && SeenBy(plan.actions) == seen
                  && plan.end == SleepsUntil(NextSleepId(base, at), env.now + base(at + more).duration))
            && (t <= env.now ==> plan.end == Exec(later, seen + [Ok("")], cache, env, fuel - |seen| - 1).end)
            && (seen + [Ok("")] <= SeenBy(plan.actions) <==> t <= env.now)
  {
    hide Exec, Counter, Render, SeenBy, Passive;
    var later, seen := UntilAt(base, at, t, env.now), Position(at, more, t, env.now);
    NoSleepCounts(base, at, more);
    if env.now < t {
      FedBehind(base, cache, at, more, t, env.now);
      SameBehind(base, at, more, t, env.now, "sleep");
    } else {
      FedAfter(base, cache, at, at + more, t, env.now);
    }
    assert seen[..0] == [] && seen[0..] == seen;
    ExecAlong(later, cache, seen, 0, env, fuel);
    if env.now < t {
      SuspendsThere(later, seen, cache, env, fuel - |seen|);
      PassiveBoth(Exec(later, [], cache, env, fuel).actions, []);
    } else {
      ExecAnswered(later, seen, cache, env, fuel - |seen|);
      assert seen + ([Ok("")] + SeenBy(Exec(later, seen + [Ok("")], cache, env, fuel - |seen| - 1).actions)) ==
             (seen + [Ok("")]) + SeenBy(Exec(later, seen + [Ok("")], cache, env, fuel - |seen| - 1).actions);
    }
  }

  lemma SuspendsThere(wf: Workflow, seen: seq<Outcome>, cache: map<string, Outcome>, env: Env, fuel: nat)
    requires fuel > 0 && wf(seen).Sleep? && IdOf(wf, seen) !in cache
    ensures Exec(wf, seen, cache, env, fuel) == Plan([], SleepsUntil(IdOf(wf, seen), env.now + wf(seen).duration))
    ensures SeenBy([]) == [] && Passive([])
  {
  }

  /** A workflow that ends after that sleep ends without it, or suspends on it. */
  lemma LastSleepIsSkippedExactly(
    base: Workflow, at: seq<Outcome>, more: seq<Outcome>, t: nat, cache: map<string, Outcome>, env: Env, fuel: nat)
    requires Fed(base, cache, at + more) && NoSleep(base, at, more) && base(at + more).Sleep?
    requires UntilId(base, at) in cache && NextSleepId(base, at) !in cache && |at + more| + 2 <= fuel
    requires Ends(base(at + more + [Ok("")]))
    ensures var end := Exec(UntilAt(base, at, t, env.now), [], cache, env, fuel).end;
            && (end.SleepsUntil? <==> env.now < t)
            && (t <= env.now ==> end == Ending(base(at + more + [Ok("")])))
  {
    hide Exec, Counter, Render, SeenBy, Passive, Fed, NoSleep;
    NextSleepIsSkippedExactly(base, at, more, t, cache, env, fuel);
    var seen := Position(at, more, t, env.now);
    ExecStep(UntilAt(base, at, t, env.now), seen + [Ok("")], cache, env, fuel - |seen| - 1);
  }
}
