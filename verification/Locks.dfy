/**
 * The locking columns of one row and the statements that change them.  The instance lock
 * and the leader's row in `system_locks` follow the same conditions; a missing system lock
 * is an unlocked one.
 */
module Locks {
  import opened Clock

  datatype Lock = Unlocked | Locked(owner: string, expires: nat)

  /** The stored expiry lies before the current second. */
  predicate Expired(l: Lock, now: nat) {
    l.Locked? && l.expires < Seconds(now)
  }

  /** The condition under which a worker's acquiring UPDATE touches the row. */
  predicate Available(l: Lock, worker: string, now: nat) {
    l.Unlocked? || Expired(l, now) || l.owner == worker
  }

  /** What an acquisition writes: `clock` is read before the statement runs. */
  function Granted(worker: string, clock: nat, timeout: nat): Lock {
    Locked(worker, Seconds(clock + timeout * SECOND))
  }

  function TryAcquire(l: Lock, worker: string, clock: nat, now: nat, timeout: nat): Lock {
    if Available(l, worker, now) then Granted(worker, clock, timeout) else l
  }

  function Release(l: Lock, worker: string): Lock {
    if l.Locked? && l.owner == worker then Unlocked else l
  }

  function Refresh(l: Lock, worker: string, clock: nat, timeout: nat): Lock {
    if l.Locked? && l.owner == worker then Granted(worker, clock, timeout) else l
  }

  /** The clearing UPDATE of the stale-lock cleanup and of the expired-system-lock cleanup. */
  function Cleanup(l: Lock, now: nat): Lock {
    if Expired(l, now) then Unlocked else l
  }

  /**
   * Rounding down costs the holder nothing: a lock granted until `deadline` becomes
   * available to others at the first full second after it, never at or before it, and at
   * most one second late.
   */
  lemma AvailableExactlyFrom(worker: string, clock: nat, timeout: nat, other: string, now: nat)
    requires other != worker
    ensures var deadline := clock + timeout * SECOND;
            var opens := (deadline / SECOND + 1) * SECOND;
            && deadline < opens <= deadline + SECOND
            && (Available(Granted(worker, clock, timeout), other, now) <==> opens <= now)
  {
    var deadline := clock + timeout * SECOND;
    SecondsBounds(deadline);
    SecondsBounds(now);
    if Seconds(deadline) < Seconds(now) {
      assert (Seconds(deadline) + 1) * SECOND <= Seconds(now) * SECOND;
    }
  }
}
