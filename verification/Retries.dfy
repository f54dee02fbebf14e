/** The retry loop of an activity: when it stops, with what, and how long it waits at most. */
module Retries {
  import opened Prelude

  /** An error, with everything errors.Is finds in its chain. */
  datatype Error = Error(message: string, terminal: bool, chain: seq<string>)

  datatype Attempt = Success(value: string) | Failure(error: Error)

  datatype Ended =
    | Returned(value: string)
    | TerminalError(error: Error)
    | Exhausted(attempts: nat, last: Error)
    | Interrupted

  /** Intervals are in nanoseconds; a limit of zero or less means none. */
  datatype Policy = Policy(
    maxAttempts: int,
    initialInterval: nat,
    maxInterval: nat,
    multiplier: real,
    randomizationFactor: real,
    nonRetryable: seq<string>)
  {
    predicate ShouldRetry(attempts: nat, error: Error) {
      && !(maxAttempts > 0 && attempts >= maxAttempts)
      && forall k :: 0 <= k < |nonRetryable| ==> nonRetryable[k] !in error.chain
    }

    /** `random` lies in [0, 1), as math/rand's Float64. */
    function AddJitter(delay: int, random: real): int {
      if randomizationFactor == 0.0 then delay else Truncate(Scaled(delay, Swing(random)))
    }

    function Swing(random: real): real {
      1.0 + Product(randomizationFactor, 2.0 * random - 1.0)
    }

    /** The largest factor by which jitter lengthens a delay. */
    function Most(): real {
      1.0 + randomizationFactor
    }

    /** The delay after the given number of attempts; the first one is not capped. */
    function GetDelay(attempts: nat, random: real): int {
      if attempts <= 1 then AddJitter(initialInterval, random) else AddJitter(Backoff(attempts), random)
    }

    /** Exponential backoff, capped at the maximum interval. */
    function Backoff(attempts: nat): int
      requires attempts > 1
    {
      var delay := initialInterval as real * Pow(multiplier, attempts - 1);
      Truncate(if delay > maxInterval as real then maxInterval as real else delay)
    }
  }

  /** Go's conversion of a float to an integer. */
  function Truncate(x: real): int {
    if x >= 0.0 then x.Floor else -((-x).Floor)
  }

  function Product(x: real, y: real): real {
    x * y
  }

  function Scaled(delay: int, factor: real): real {
    Product(delay as real, factor)
  }

  function Pow(base: real, exponent: nat): real {
    if exponent == 0 then 1.0 else base * Pow(base, exponent - 1)
  }

  /** time.After of a negative duration fires at once. */
  function Waited(delay: int): nat {
    if delay < 0 then 0 else delay
  }

  /** The waits after attempts 1 to n. */
  function TotalWait(p: Policy, random: nat -> real, n: nat): nat {
    if n == 0 then 0 else TotalWait(p, random, n - 1) + Waited(p.GetDelay(n, random(n)))
  }

  // ---- The loop ----

  /** Nothing is tried after attempt k. */
  predicate Stops(p: Policy, fn: nat -> Attempt, interrupted: nat -> Option<nat>, k: nat) {
    || fn(k).Success?
    || fn(k).error.terminal
    || !p.ShouldRetry(k, fn(k).error)
    || interrupted(k).Some?
  }

  /** With what the loop ends if it stops after attempt k. */
  function EndedAt(p: Policy, fn: nat -> Attempt, k: nat): Ended {
    match fn(k)
    case Success(v) => Returned(v)
    case Failure(e) =>
      if e.terminal then TerminalError(e)
      else if !p.ShouldRetry(k, e) then Exhausted(k, e)
      else Interrupted
  }

  /** How much of the last wait has passed when it is cut short, if it is. */
  function CutShort(p: Policy, fn: nat -> Attempt, interrupted: nat -> Option<nat>, random: nat -> real, k: nat): (t: nat)
    ensures t <= Waited(p.GetDelay(k, random(k)))
  {
    var delay := Waited(p.GetDelay(k, random(k)));
    if !EndedAt(p, fn, k).Interrupted? || interrupted(k).None? then 0
    else if interrupted(k).value < delay then interrupted(k).value else delay
  }

  /** It stops at the limit at the latest. */
  lemma StopsAtLimit(p: Policy, fn: nat -> Attempt, interrupted: nat -> Option<nat>)
    requires p.maxAttempts > 0
    ensures Stops(p, fn, interrupted, p.maxAttempts)
  {
  }

  /**
   * executeWithRetry.  `fn(k)` is what attempt k returns, `interrupted(k)` whether, and after how
   * long, the context is done during the wait after it.  With a limit the loop stops by itself;
   * without one it stops if an attempt does, at `stop` say.
   */
  method ExecuteWithRetry(
    p: Policy, fn: nat -> Attempt, interrupted: nat -> Option<nat>, random: nat -> real, ghost stop: nat)
    returns (ended: Ended, attempts: nat, waited: nat)
    requires p.maxAttempts > 0 || (stop > 0 && Stops(p, fn, interrupted, stop))
    ensures attempts > 0 && ended == EndedAt(p, fn, attempts)
    // every attempt but the last failed with an error that may be retried, below the limit
    ensures forall k :: 0 < k < attempts ==>
              && fn(k).Failure? && !fn(k).error.terminal && interrupted(k).None?
              && (p.maxAttempts > 0 ==> k < p.maxAttempts)
              && forall n :: 0 <= n < |p.nonRetryable| ==> p.nonRetryable[n] !in fn(k).error.chain
    ensures p.maxAttempts > 0 ==> attempts <= p.maxAttempts
    ensures forall v :: ended == Returned(v) <==> fn(attempts) == Success(v)
    ensures forall e :: ended == TerminalError(e) <==> fn(attempts) == Failure(e) && e.terminal
    ensures forall n, e :: ended == Exhausted(n, e) <==>
              && n == attempts && fn(attempts) == Failure(e) && !e.terminal
              && (|| (p.maxAttempts > 0 && attempts == p.maxAttempts)
                  || exists k :: 0 <= k < |p.nonRetryable| && p.nonRetryable[k] in e.chain)
    ensures ended.Interrupted? ==> interrupted(attempts).Some?
    ensures waited == TotalWait(p, random, attempts - 1) + CutShort(p, fn, interrupted, random, attempts)
    ensures !ended.Interrupted? ==> waited == TotalWait(p, random, attempts - 1)
    ensures ended.Interrupted? ==>
              var passed, delay := interrupted(attempts).value, p.GetDelay(attempts, random(attempts));
              waited == TotalWait(p, random, attempts - 1) + if delay < 0 then 0 else if passed < delay then passed else delay
  {
    ghost var last := if p.maxAttempts > 0 then p.maxAttempts else stop;
    if p.maxAttempts > 0 {
      StopsAtLimit(p, fn, interrupted);
    }
    attempts, waited := 0, 0;
    while true
      invariant attempts < last && Stops(p, fn, interrupted, last)
      invariant forall k :: 0 < k <= attempts ==>
                  && fn(k).Failure? && !fn(k).error.terminal && interrupted(k).None?
                  && (p.maxAttempts > 0 ==> k < p.maxAttempts)
                  && forall n :: 0 <= n < |p.nonRetryable| ==> p.nonRetryable[n] !in fn(k).error.chain
      invariant waited == TotalWait(p, random, attempts)
      decreases last - attempts
    {
      attempts := attempts + 1;
      var result := fn(attempts);
      if result.Success? {
        return Returned(result.value), attempts, waited;
      }
      if result.error.terminal {
        return TerminalError(result.error), attempts, waited;
      }
      if !p.ShouldRetry(attempts, result.error) {
        return Exhausted(attempts, result.error), attempts, waited;
      }
      var delay := p.GetDelay(attempts, random(attempts));
      if interrupted(attempts).Some? {
        waited := waited + CutShort(p, fn, interrupted, random, attempts);
        return Interrupted, attempts, waited;
      }
      waited := waited + Waited(delay);
    }
  }

  // ---- How long it waits ----

  /** Exponents add up, and the first power is the base. */
  lemma {:induction false} PowAdds(base: real, m: nat, n: nat)
    ensures Pow(base, m + n) == Pow(base, m) * Pow(base, n) && Pow(base, 0) == 1.0 && Pow(base, 1) == base
  {
    if m > 0 {
      PowAdds(base, m - 1, n);
      Associates(base, Pow(base, m - 1), Pow(base, n));
    }
  }

  lemma Associates(a: real, b: real, c: real)
    ensures (a * b) * c == a * (b * c)
  {
  }

  /**
   * Without jitter the delay after the first attempt is the initial interval; after attempt k it is
   * the initial interval times the (k - 1)-th power of the multiplier in whole nanoseconds, or the
   * maximum interval if that is less.
   */
  lemma BackoffIsExponential(p: Policy, k: nat, random: real)
    requires Sane(p) && p.randomizationFactor == 0.0
    ensures p.GetDelay(1, random) == p.initialInterval
    ensures k > 1 ==>
              var exact := p.initialInterval as real * Pow(p.multiplier, k - 1);
              && (exact <= p.maxInterval as real ==>
                    p.GetDelay(k, random) as real <= exact < p.GetDelay(k, random) as real + 1.0)
              && (exact > p.maxInterval as real ==> p.GetDelay(k, random) == p.maxInterval)
  {
    hide Pow;
    if k > 1 {
      PowNotNegative(p.multiplier, k - 1);
      ProductNotNegative(p.initialInterval as real, Pow(p.multiplier, k - 1));
    }
  }

  /** Jitter moves a delay up or down by at most its share of it, and whole nanoseconds round it down. */
  lemma JitterIsWithin(p: Policy, delay: nat, random: real)
    requires 0.0 <= p.randomizationFactor <= 1.0 && 0.0 <= random < 1.0
    ensures var jittered, share := p.AddJitter(delay, random) as real, Scaled(delay, p.randomizationFactor);
            delay as real - share - 1.0 < jittered <= delay as real + share
    ensures p.AddJitter(delay, 0.5) == delay
  {
    hide Product, Truncate, Policy.Swing;
    var x, f, swing := delay as real, p.randomizationFactor, p.Swing(random);
    SwingIsWithin(p, random);
    SwingScales(x, f, swing);
    TruncateIsFloor(Scaled(delay, swing));
    TruncateIsFloor(Scaled(delay, 1.0));
  }

  lemma SwingIsWithin(p: Policy, random: real)
    requires 0.0 <= p.randomizationFactor && 0.0 <= random < 1.0
    ensures 1.0 - p.randomizationFactor <= p.Swing(random) <= 1.0 + p.randomizationFactor && p.Swing(0.5) == 1.0
  {
    hide Product;
    ProductWithin(p.randomizationFactor, 2.0 * random - 1.0);
    ProductWithin(p.randomizationFactor, 2.0 * 0.5 - 1.0);
  }

  lemma ProductWithin(x: real, part: real)
    requires 0.0 <= x && -1.0 <= part <= 1.0
    ensures -x <= Product(x, part) <= x && (part == 0.0 ==> Product(x, part) == 0.0)
  {
    ScaledUp(x, -1.0, part);
    ScaledUp(x, part, 1.0);
  }

  lemma SwingScales(x: real, f: real, swing: real)
    requires 0.0 <= x && 0.0 <= f <= 1.0 && 1.0 - f <= swing <= 1.0 + f
    ensures x - Product(x, f) <= Product(x, swing) <= x + Product(x, f) && 0.0 <= Product(x, swing)
    ensures Product(x, 1.0) == x
  {
    ScaledUp(x, 1.0 - f, swing);
    ScaledUp(x, swing, 1.0 + f);
    ScaledUp(x, 0.0, swing);
    Distributes(x, f);
  }

  lemma Distributes(x: real, f: real)
    ensures x * (1.0 - f) == x - x * f && x * (1.0 + f) == x + x * f
  {
  }

  lemma TruncateIsFloor(x: real)
    requires 0.0 <= x
    ensures Truncate(x) as real <= x < Truncate(x) as real + 1.0
  {
  }

  /** A fixed interval without jitter is waited for in full after each of the first n attempts. */
  lemma {:induction false} FixedWaitIsFull(p: Policy, random: nat -> real, n: nat)
    requires p.randomizationFactor == 0.0 && p.multiplier == 1.0 && p.initialInterval == p.maxInterval
    ensures TotalWait(p, random, n) == n * p.initialInterval
  {
    hide Pow;
    if n > 0 {
      FixedWaitIsFull(p, random, n - 1);
      OnePower(n - 1);
      assert n * p.initialInterval == (n - 1) * p.initialInterval + p.initialInterval;
    }
  }

  lemma {:induction false} OnePower(n: nat)
    ensures Pow(1.0, n) == 1.0
  {
    if n > 0 {
      OnePower(n - 1);
    }
  }

  predicate Sane(p: Policy) {
    p.multiplier >= 0.0 && p.randomizationFactor >= 0.0
  }

  function Larger(a: nat, b: nat): nat {
    if a > b then a else b
  }

  lemma PowNotNegative(base: real, exponent: nat)
    requires base >= 0.0
    ensures Pow(base, exponent) >= 0.0
  {
  }

  lemma ScaledBound(delay: real, factor: real, bound: real, most: real)
    requires 0.0 <= delay <= bound && factor <= most && 0.0 <= most
    ensures delay * factor <= bound * most
  {
    ScaledUp(delay, factor, most);
    ScaledUp(most, delay, bound);
  }

  lemma JitterBound(p: Policy, delay: nat, random: real, bound: nat)
    requires Sane(p) && 0.0 <= random < 1.0 && delay <= bound
    ensures Waited(p.AddJitter(delay, random)) as real <= Scaled(bound, p.Most())
  {
    hide Waited, Truncate, Scaled, Policy.Swing, Policy.Most;
    SwingBound(p, random);
    JitteredBound(delay, p.Swing(random), bound, p.Most());
  }

  lemma JitteredBound(delay: nat, factor: real, bound: nat, most: real)
    requires delay <= bound && factor <= most && 1.0 <= most
    ensures Waited(Truncate(Scaled(delay, factor))) as real <= Scaled(bound, most)
    ensures Waited(delay) as real <= Scaled(bound, most)
  {
    hide Truncate;
    ScaledBound(delay as real, factor, bound as real, most);
    Lengthened(bound as real, most);
    WaitedTruncated(Scaled(delay, factor), Scaled(bound, most));
  }

  lemma Lengthened(x: real, factor: real)
    requires 0.0 <= x && 1.0 <= factor
    ensures x <= x * factor
  {
    ProductNotNegative(x, factor - 1.0);
    assert x * factor == x * (factor - 1.0) + x;
  }

  lemma SwingBound(p: Policy, random: real)
    requires Sane(p) && 0.0 <= random < 1.0
    ensures p.Swing(random) <= p.Most() && 1.0 <= p.Most()
  {
    hide Product;
    ProductWithin(p.randomizationFactor, 2.0 * random - 1.0);
  }

  lemma ScaledUp(x: real, low: real, high: real)
    requires 0.0 <= x && low <= high
    ensures x * low <= x * high
  {
  }

  lemma WaitedTruncated(x: real, bound: real)
    requires x <= bound && 0.0 <= bound
    ensures Waited(Truncate(x)) as real <= bound
  {
  }

  /** The longest single wait. */
  function Longest(p: Policy): real {
    Scaled(Larger(p.initialInterval, p.maxInterval), p.Most())
  }

  lemma ProductNotNegative(a: real, b: real)
    requires a >= 0.0 && b >= 0.0
    ensures a * b >= 0.0
  {
  }

  lemma BackoffBound(p: Policy, attempts: nat)
    requires Sane(p) && attempts > 1
    ensures 0 <= p.Backoff(attempts) <= p.maxInterval
  {
    hide Pow;
    PowNotNegative(p.multiplier, attempts - 1);
    ProductNotNegative(p.initialInterval as real, Pow(p.multiplier, attempts - 1));
  }

  lemma DelayBound(p: Policy, attempts: nat, random: real)
    requires Sane(p) && 0.0 <= random < 1.0
    ensures Waited(p.GetDelay(attempts, random)) as real <= Longest(p)
  {
    hide Policy.AddJitter, Policy.Backoff, Policy.Most, Scaled;
    var bound := Larger(p.initialInterval, p.maxInterval);
    if attempts <= 1 {
      JitterBound(p, p.initialInterval, random, bound);
    } else {
      BackoffBound(p, attempts);
      JitterBound(p, p.Backoff(attempts), random, bound);
    }
  }

  function Times(n: nat, x: real): real {
    if n == 0 then 0.0 else Times(n - 1, x) + x
  }

  lemma TimesIsProduct(n: nat, x: real)
    ensures Times(n, x) == Scaled(n, x)
  {
    if n > 0 {
      TimesIsProduct(n - 1, x);
      assert n as real * x == (n - 1) as real * x + x;
    }
  }

  lemma {:induction false} WaitIsTimes(p: Policy, random: nat -> real, n: nat)
    requires Sane(p) && forall k :: 0.0 <= random(k) < 1.0
    ensures TotalWait(p, random, n) as real <= Times(n, Longest(p))
  {
    hide Longest, Policy.GetDelay;
    if n > 0 {
      WaitIsTimes(p, random, n - 1);
      DelayBound(p, n, random(n));
    }
  }

  /** How often the loop waits: after all but the last of its attempts, and if that wait is cut short after it too. */
  function Waits(p: Policy, fn: nat -> Attempt, attempts: nat): nat
    requires attempts > 0
  {
    if EndedAt(p, fn, attempts).Interrupted? then attempts else attempts - 1
  }

  lemma WithinWaits(
    p: Policy, fn: nat -> Attempt, interrupted: nat -> Option<nat>, random: nat -> real, attempts: nat)
    requires 0 < attempts
    ensures TotalWait(p, random, attempts - 1) + CutShort(p, fn, interrupted, random, attempts) <=
            TotalWait(p, random, Waits(p, fn, attempts))
    ensures p.maxAttempts > 0 && attempts <= p.maxAttempts ==> Waits(p, fn, attempts) <= p.maxAttempts - 1
  {
    hide Policy.GetDelay;
  }

  /**
   * All waiting together, the part of a wait that an interruption cuts short included, is at most
   * one longest wait per wait; with a limit there are at most (maxAttempts - 1), interrupted or not.
   */
  lemma WaitIsBounded(
    p: Policy, fn: nat -> Attempt, interrupted: nat -> Option<nat>, random: nat -> real, attempts: nat)
    requires Sane(p) && forall k :: 0.0 <= random(k) < 1.0
    requires 0 < attempts && (p.maxAttempts > 0 ==> attempts <= p.maxAttempts)
    ensures var waited := TotalWait(p, random, attempts - 1) + CutShort(p, fn, interrupted, random, attempts);
            && waited as real <= Scaled(Waits(p, fn, attempts), Longest(p))
            && (p.maxAttempts > 0 ==> waited as real <= Scaled(p.maxAttempts - 1, Longest(p)))
  {
    hide Longest, Times, TotalWait, CutShort, Waits, Scaled;
    var n := Waits(p, fn, attempts);
    WithinWaits(p, fn, interrupted, random, attempts);
    WaitIsTimes(p, random, n);
    TimesIsProduct(n, Longest(p));
    LongestNotNegative(p);
    if p.maxAttempts > 0 {
      MoreTimes(n, p.maxAttempts - 1, Longest(p));
      TimesIsProduct(p.maxAttempts - 1, Longest(p));
    }
  }

  lemma MoreTimes(m: nat, n: nat, x: real)
    requires m <= n && x >= 0.0
    ensures Times(m, x) <= Times(n, x)
  {
  }

  lemma LongestNotNegative(p: Policy)
    requires Sane(p)
    ensures Longest(p) >= 0.0
  {
    ProductNotNegative(Larger(p.initialInterval, p.maxInterval) as real, 1.0 + p.randomizationFactor);
  }

  /**
   * MaxInterval bounds every delay exactly if the initial interval does not exceed it: the
   * first delay is taken as it is.  (Stated without jitter, which would hide it.)
   */
  lemma CappedExactly(p: Policy)
    requires Sane(p) && p.randomizationFactor == 0.0
    ensures (forall attempts: nat, random: real :: p.GetDelay(attempts, random) <= p.maxInterval) <==>
            p.initialInterval <= p.maxInterval
  {
    assert p.GetDelay(1, 0.0) == p.initialInterval;
    forall attempts: nat, random: real | p.initialInterval <= p.maxInterval
      ensures p.GetDelay(attempts, random) <= p.maxInterval
    {
      if attempts > 1 {
        BackoffBound(p, attempts);
      }
    }
  }
}
