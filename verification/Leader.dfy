/** Leader election: the flags of one worker, and how long a punctual leader keeps the lock. */
module Leader {
  import opened Prelude
  import opened Clock
  import opened Locks
  import opened Leases
  import opened Retries

  // ---- The heartbeat ----

  function Factor(random: real): real {
    1.0 + 0.25 * (2.0 * random - 1.0)
  }

  /** Plus or minus a quarter; `random` lies in [0, 1). */
  function AddJitter(d: nat, random: real): int {
    Truncate(d as real * Factor(random))
  }

  lemma FactorBounds(random: real)
    requires 0.0 <= random < 1.0
    ensures 0.75 <= Factor(random) <= 1.25
  {
  }

  lemma JitterIsAQuarter(d: nat, random: real)
    requires 0.0 <= random < 1.0
    ensures 0 <= AddJitter(d, random)
    ensures 4 * AddJitter(d, random) <= 5 * d
    ensures 3 * d < 4 * AddJitter(d, random) + 4
  {
    hide Factor, Truncate;
    FactorBounds(random);
    ProductBounds(d as real, Factor(random));
    QuarterOff(d, d as real, d as real * Factor(random));
  }

  /** The whole of that range: three quarters at the least draw, the period itself at the middle one. */
  lemma JitterSpans(d: nat)
    ensures 4 * AddJitter(d, 0.0) <= 3 * d < 4 * AddJitter(d, 0.0) + 4
    ensures AddJitter(d, 0.5) == d
  {
    hide Truncate, Factor;
    FactorEnds();
    Quarters(d, d as real);
  }

  lemma FactorEnds()
    ensures Factor(0.0) == 0.75 && Factor(0.5) == 1.0
  {
  }

  lemma Quarters(d: nat, e: real)
    requires e == d as real
    ensures 4 * Truncate(e * 0.75) <= 3 * d < 4 * Truncate(e * 0.75) + 4
    ensures Truncate(e * 1.0) == d
  {
  }

  lemma ProductBounds(x: real, factor: real)
    requires 0.0 <= x && 0.75 <= factor <= 1.25
    ensures 0.75 * x <= x * factor <= 1.25 * x
  {
    ScaledUp(x, 0.75, factor);
    ScaledUp(x, factor, 1.25);
  }

  lemma QuarterOff(d: nat, e: real, x: real)
    requires e == d as real && 0.75 * e <= x <= 1.25 * e
    ensures 0 <= Truncate(x)
    ensures 4 * Truncate(x) <= 5 * d
    ensures 3 * d < 4 * Truncate(x) + 4
  {
    assert Truncate(x) as real <= x < Truncate(x) as real + 1.0;
  }

  /** Two heartbeats, each jittered on its own, take two and a half at most. */
  lemma TwoHeartbeatsTake(heartbeat: nat, random: real, random': real)
    requires 0.0 <= random < 1.0 && 0.0 <= random' < 1.0
    ensures 0 <= 2 * (AddJitter(heartbeat, random) + AddJitter(heartbeat, random')) <= 5 * heartbeat
  {
    JitterIsAQuarter(heartbeat, random);
    JitterIsAQuarter(heartbeat, random');
  }

  // ---- Continuity ----

  /** The leader renews only, with its clock, for whole leases; it neither refreshes nor releases. */
  predicate OnlyRenews(s: Lease, step: Step, leader: string, lease: nat) {
    By(step, leader) ==> step.Acquiring? && step.clock == s.now && step.timeout == lease
  }

  /**
   * Along the whole run the leader has last tried at most `gap` ago; at the beginning that was at
   * `last`.  Nothing is said about whether its tries succeed.
   */
  ghost predicate KeepsTrying(s: Lease, steps: seq<Step>, leader: string, lease: nat, gap: nat, last: nat)
    decreases |steps|
  {
    && s.now <= last + gap
    && (steps != [] ==>
          && OnlyRenews(s, steps[0], leader, lease)
          && KeepsTrying(Next(s, steps[0]), steps[1..], leader, lease, gap, if By(steps[0], leader) then s.now else last))
  }

  /** The leader's last try, at `last`, was a success. */
  predicate Holds(s: Lease, leader: string, lease: nat, last: nat) {
    leader in s.deadlines && s.deadlines[leader] == last + lease * SECOND
  }

  /** A leader that tries in time succeeds, and a step of another worker leaves its lease alone. */
  lemma StepHolds(s: Lease, step: Step, leader: string, lease: nat, gap: nat, last: nat)
    requires Sound(s) && Holds(s, leader, lease, last) && s.now <= last + gap && gap <= lease * SECOND
    requires OnlyRenews(s, step, leader, lease)
    ensures s.lock.Locked? && s.lock.owner == leader
    ensures By(step, leader) ==> Next(s, step).lock == Granted(leader, s.now, lease)
    ensures step.Acquiring? && step.worker != leader ==> Next(s, step) == s
    ensures Holds(Next(s, step), leader, lease, if By(step, leader) then s.now else last)
  {
    assert Believes(s, leader);
    SecondsMonotone(s.now, s.deadlines[leader]);
  }

  lemma {:induction false} TryingHolds(
    s: Lease, steps: seq<Step>, leader: string, lease: nat, gap: nat, last: nat, n: nat)
    requires Sound(s) && Holds(s, leader, lease, last) && gap <= lease * SECOND && n <= |steps|
    requires KeepsTrying(s, steps, leader, lease, gap, last)
    ensures var t := Run(s, steps[..n]);
            && t.lock.Locked? && t.lock.owner == leader
            && (n < |steps| && By(steps[n], leader) ==> Next(t, steps[n]).lock == Granted(leader, t.now, lease))
            && (n < |steps| && steps[n].Acquiring? && steps[n].worker != leader ==> Next(t, steps[n]) == t)
    decreases |steps|
  {
    if n == 0 {
      assert steps[..0] == [];
      StepHolds(s, if steps == [] then Waiting(0) else steps[0], leader, lease, gap, last);
    } else {
      StepHolds(s, steps[0], leader, lease, gap, last);
      StepKeepsSound(s, steps[0]);
      TryingHolds(Next(s, steps[0]), steps[1..], leader, lease, gap, if By(steps[0], leader) then s.now else last, n - 1);
      assert steps[..n][0] == steps[0] && steps[..n][1..] == steps[1..][..n - 1];
    }
  }

  /**
   * Leadership is continuous.  A worker takes the lock for a whole-second lease of at least three
   * heartbeats, and from then on tries again, always before two heartbeats, however jittered, have
   * passed since its last try.  Then it holds the lock at every moment of the run: every try of
   * its own succeeds, and every try of another worker fails.
   */
  lemma LeadershipIsContinuous(
    s: Lease, steps: seq<Step>, leader: string, heartbeat: nat, random: real, random': real, gap: nat, lease: nat, n: nat)
    requires Sound(s) && Available(s.lock, leader, s.now) && n <= |steps|
    requires 0.0 <= random < 1.0 && 0.0 <= random' < 1.0 && 3 * heartbeat <= lease * SECOND
    requires gap <= AddJitter(heartbeat, random) + AddJitter(heartbeat, random')
    requires KeepsTrying(Next(s, Acquiring(leader, s.now, lease)), steps, leader, lease, gap, s.now)
    ensures var t := Run(Next(s, Acquiring(leader, s.now, lease)), steps[..n]);
            && t.lock.Locked? && t.lock.owner == leader
            && (n < |steps| && By(steps[n], leader) ==> Next(t, steps[n]).lock == Granted(leader, t.now, lease))
            && (n < |steps| && steps[n].Acquiring? && steps[n].worker != leader ==> Next(t, steps[n]) == t)
  {
    hide AddJitter;
    var taken := Next(s, Acquiring(leader, s.now, lease));
    TwoHeartbeatsTake(heartbeat, random, random');
    StepKeepsSound(s, Acquiring(leader, s.now, lease));
    TryingHolds(taken, steps, leader, lease, gap, s.now, n);
  }

  // ---- The flags ----

  /** The leader's row in system_locks. */
  class SystemLock {
    var lock: Lock

    constructor ()
      ensures lock == Unlocked
    {
      lock := Unlocked;
    }

    method TryAcquireSystemLock(worker: string, timeout: nat, clock: nat, now: nat) returns (acquired: bool)
      modifies this
      ensures acquired == Available(old(lock), worker, now)
      ensures lock == TryAcquire(old(lock), worker, clock, now, timeout)
    {
      acquired := Available(lock, worker, now);
      if acquired {
        lock := Granted(worker, clock, timeout);
      }
    }

    method ReleaseSystemLock(worker: string)
      modifies this
      ensures lock == Release(old(lock), worker)
    {
      if lock.Locked? && lock.owner == worker {
        lock := Unlocked;
      }
    }
  }

  /** One worker's part; `started` and `cancelled` count the starts and cancellations of its tasks. */
  class Election {
    const row: SystemLock
    const workerID: string
    const lease: nat
    var isLeader: bool
    var leaderTasksRunning: bool
    var started: nat
    var cancelled: nat

    /** The tasks are never started twice: every start but a running one has its cancellation. */
    predicate Counted()
      reads this
    {
      started == cancelled + if leaderTasksRunning then 1 else 0
    }

    /** The flag says whether the tasks run. */
    predicate Agrees()
      reads this
    {
      isLeader == leaderTasksRunning && Counted()
    }

    constructor (row: SystemLock, workerID: string, lease: nat)
      ensures Agrees() && !isLeader && this.row == row && this.workerID == workerID && this.lease == lease
    {
      this.row, this.workerID, this.lease := row, workerID, lease;
      isLeader, leaderTasksRunning, started, cancelled := false, false, 0, 0;
    }

    method StartLeaderOnlyTasks()
      requires Counted()
      modifies this`leaderTasksRunning, this`started
      ensures Counted() && leaderTasksRunning
      ensures started == old(started) + if old(leaderTasksRunning) then 0 else 1
    {
      if leaderTasksRunning {
        return;
      }
      leaderTasksRunning := true;
      started := started + 1;
    }

    method StopLeaderTasks()
      requires Counted()
      modifies this`leaderTasksRunning, this`cancelled
      ensures Counted() && !leaderTasksRunning
      ensures cancelled == old(cancelled) + if old(leaderTasksRunning) then 1 else 0
    {
      if !leaderTasksRunning {
        return;
      }
      cancelled := cancelled + 1;
      leaderTasksRunning := false;
    }

    /** One election step; `answers` says whether the database does. */
    method TryAcquireLeadership(clock: nat, now: nat, answers: bool)
      requires Agrees()
      modifies this, row
      ensures Agrees()
      ensures !answers ==> isLeader == old(isLeader) && row.lock == old(row.lock)
      ensures answers ==> row.lock == if Available(old(row.lock), workerID, now)
                                      then Locked(workerID, Seconds(clock + lease * SECOND)) else old(row.lock)
      ensures answers ==> (isLeader <==> row.lock.Locked? && row.lock.owner == workerID)
      ensures started == old(started) + if isLeader && !old(isLeader) then 1 else 0
      ensures cancelled == old(cancelled) + if !isLeader && old(isLeader) then 1 else 0
    {
      var wasLeader := isLeader;
      if !answers {
        return;
      }
      var acquired := row.TryAcquireSystemLock(workerID, lease, clock, now);
      if acquired && !wasLeader {
        isLeader := true;
        StartLeaderOnlyTasks();
      } else if !acquired && wasLeader {
        isLeader := false;
        StopLeaderTasks();
      }
    }

    /** The row after tick k: taken by an answered try wherever it is free, lapsed or the worker's own. */
    function LockAt(first: Lock, clock: nat -> nat, answers: nat -> bool, others: (nat, Lock) -> Lock, k: nat): Lock
      decreases k
    {
      var found := if k == 0 then first else others(k, LockAt(first, clock, answers, others, k - 1));
      if answers(k) && Available(found, workerID, clock(k)) then Locked(workerID, Seconds(clock(k) + lease * SECOND)) else found
    }

    /** Leader after tick k: who then holds the row, as far as the last answered try has told. */
    predicate LeaderAt(
      was: bool, first: Lock, clock: nat -> nat, answers: nat -> bool, others: (nat, Lock) -> Lock, k: nat)
      decreases k
    {
      if answers(k) then
        var lock := LockAt(first, clock, answers, others, k);
        lock.Locked? && lock.owner == workerID
      else if k == 0 then was else LeaderAt(was, first, clock, answers, others, k - 1)
    }

    /** How many terms begin up to tick k. */
    function Terms(
      was: bool, first: Lock, clock: nat -> nat, answers: nat -> bool, others: (nat, Lock) -> Lock, k: nat): nat
      decreases k
    {
      var led := if k == 0 then was else LeaderAt(was, first, clock, answers, others, k - 1);
      (if k == 0 then 0 else Terms(was, first, clock, answers, others, k - 1))
      + if LeaderAt(was, first, clock, answers, others, k) && !led then 1 else 0
    }

    /**
     * The election loop for `ticks` heartbeats, then the end of its context.  Other workers may
     * have changed the row between two ticks, to what `others` makes of it.
     */
    method RunLeaderElection(ticks: nat, clock: nat -> nat, answers: nat -> bool, others: (nat, Lock) -> Lock)
      requires Agrees()
      modifies this, row
      ensures !leaderTasksRunning && started == cancelled
      ensures row.lock == LockAt(old(row.lock), clock, answers, others, ticks)
      ensures isLeader == LeaderAt(old(isLeader), old(row.lock), clock, answers, others, ticks)
      ensures started == old(started) + Terms(old(isLeader), old(row.lock), clock, answers, others, ticks)
    {
      TryAcquireLeadership(clock(0), clock(0), answers(0));
      var k := 0;
      while k < ticks
        invariant 0 <= k <= ticks && Agrees()
        invariant row.lock == LockAt(old(row.lock), clock, answers, others, k)
        invariant isLeader == LeaderAt(old(isLeader), old(row.lock), clock, answers, others, k)
        invariant started == old(started) + Terms(old(isLeader), old(row.lock), clock, answers, others, k)
      {
        k := k + 1;
        row.lock := others(k, row.lock);
        TryAcquireLeadership(clock(k), clock(k), answers(k));
      }
      StopLeaderTasks();
    }

    /** Shutdown, after the loop has ended: the lock is given back at once. */
    method Shutdown()
      requires !leaderTasksRunning && Counted()
      modifies this, row
      ensures Agrees() && !isLeader
      ensures row.lock == if old(isLeader && row.lock.Locked? && row.lock.owner == workerID) then Unlocked else old(row.lock)
    {
      if isLeader {
        row.ReleaseSystemLock(workerID);
        isLeader := false;
      }
    }
  }
}
