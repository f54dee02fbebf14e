/** Who may believe to hold a lock, over every interleaving of workers and cleanups. */
module Leases {
  import opened Clock
  import opened Locks

  /**
   * `deadlines[w]` is the real instant up to which worker `w` may take itself for the holder:
   * its clock reading plus the timeout of its last successful acquisition or refresh that it
   * has not released since.  No table holds it.
   */
  datatype Lease = Lease(lock: Lock, now: nat, deadlines: map<string, nat>)

  datatype Step =
    | Acquiring(worker: string, clock: nat, timeout: nat)
    | Refreshing(worker: string, clock: nat, timeout: nat)
    | Releasing(worker: string)
    | Cleaning
    | Waiting(duration: nat)

  function Next(s: Lease, step: Step): Lease {
    match step
    case Acquiring(w, clock, timeout) =>
      if Available(s.lock, w, s.now)
      then s.(lock := Granted(w, clock, timeout), deadlines := s.deadlines[w := clock + timeout * SECOND])
      else s
    case Refreshing(w, clock, timeout) =>
      if s.lock.Locked? && s.lock.owner == w
      then s.(lock := Refresh(s.lock, w, clock, timeout), deadlines := s.deadlines[w := clock + timeout * SECOND])
      else s
    case Releasing(w) => s.(lock := Release(s.lock, w), deadlines := s.deadlines - {w})
    case Cleaning => s.(lock := Cleanup(s.lock, s.now))
    case Waiting(d) => s.(now := s.now + d)
  }

  function Run(s: Lease, steps: seq<Step>): Lease
    decreases |steps|
  {
    if steps == [] then s else Run(Next(s, steps[0]), steps[1..])
  }

  predicate Believes(s: Lease, worker: string) {
    worker in s.deadlines && s.now <= s.deadlines[worker]
  }

  /** Whoever may still take itself for the holder is the holder in the table. */
  ghost predicate Sound(s: Lease) {
    forall w :: Believes(s, w) ==> s.lock == Locked(w, Seconds(s.deadlines[w]))
  }

  lemma StepKeepsSound(s: Lease, step: Step)
    requires Sound(s)
    ensures Sound(Next(s, step))
  {
    var t := Next(s, step);
    forall w | Believes(t, w) ensures t.lock == Locked(w, Seconds(t.deadlines[w])) {
      if Believes(s, w) {
        SecondsMonotone(s.now, s.deadlines[w]);
      }
    }
  }

  lemma {:induction false} RunKeepsSound(s: Lease, steps: seq<Step>)
    requires Sound(s)
    ensures Sound(Run(s, steps))
    decreases |steps|
  {
    if steps != [] {
      StepKeepsSound(s, steps[0]);
      RunKeepsSound(Next(s, steps[0]), steps[1..]);
    }
  }

  /** At every instant of every run at most one worker holds an unexpired lease. */
  lemma AtMostOneHolder(now: nat, steps: seq<Step>, w1: string, w2: string)
    requires Believes(Run(Lease(Unlocked, now, map[]), steps), w1)
    requires Believes(Run(Lease(Unlocked, now, map[]), steps), w2)
    ensures w1 == w2
  {
    RunKeepsSound(Lease(Unlocked, now, map[]), steps);
  }

  predicate By(step: Step, worker: string) {
    (step.Acquiring? || step.Refreshing? || step.Releasing?) && step.worker == worker
  }

  lemma {:induction false} OthersKeepDeadline(s: Lease, steps: seq<Step>, worker: string)
    requires worker in s.deadlines
    requires forall i :: 0 <= i < |steps| ==> !By(steps[i], worker)
    ensures worker in Run(s, steps).deadlines
    ensures Run(s, steps).deadlines[worker] == s.deadlines[worker]
    decreases |steps|
  {
    if steps != [] {
      OthersKeepDeadline(Next(s, steps[0]), steps[1..], worker);
    }
  }

  /**
   * A lock taken at clock reading t for T seconds stays taken up to and including t + T,
   * whatever other workers and cleanups do meanwhile: none of them can take, clear or
   * release it.
   */
  lemma LeaseHoldsUntilDeadline(
    s: Lease, worker: string, clock: nat, timeout: nat, steps: seq<Step>, step: Step)
    requires Sound(s) && Available(s.lock, worker, s.now)
    requires forall i :: 0 <= i < |steps| ==> !By(steps[i], worker)
    requires !By(step, worker) && !step.Waiting?
    requires Run(Next(s, Acquiring(worker, clock, timeout)), steps).now <= clock + timeout * SECOND
    ensures var t := Run(Next(s, Acquiring(worker, clock, timeout)), steps);
            && t.lock == Granted(worker, clock, timeout)
            && Next(t, step).lock == t.lock
  {
    var taken := Next(s, Acquiring(worker, clock, timeout));
    StepKeepsSound(s, Acquiring(worker, clock, timeout));
    RunKeepsSound(taken, steps);
    OthersKeepDeadline(taken, steps, worker);
    var t := Run(taken, steps);
    assert Believes(t, worker);
    SecondsMonotone(t.now, clock + timeout * SECOND);
  }

  /** Unreleased, it can be taken by anyone one second after its deadline at the latest. */
  lemma LeaseEndsWithinASecond(
    s: Lease, worker: string, clock: nat, timeout: nat, other: string)
    requires s.lock == Granted(worker, clock, timeout)
    requires clock + timeout * SECOND + SECOND <= s.now
    ensures forall clock', timeout' ::
              Next(s, Acquiring(other, clock', timeout')).lock == Granted(other, clock', timeout')
    ensures Next(s, Cleaning).lock == Unlocked
  {
    AvailableExactlyFrom(worker, clock, timeout, worker + "'", s.now);
    assert worker + "'" != worker;
    if other != worker {
      AvailableExactlyFrom(worker, clock, timeout, other, s.now);
    }
  }
}
