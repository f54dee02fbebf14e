/** Instants are nanoseconds, as in Go's clock; the tables keep whole seconds only. */
module Clock {

  const SECOND: nat := 1_000_000_000

  /** An instant as a timestamp column stores it: "2006-01-02 15:04:05". */
  function Seconds(instant: nat): nat {
    instant / SECOND
  }

  /** Compensation rows keep milliseconds: "2006-01-02 15:04:05.000". */
  function Millis(instant: nat): nat {
    instant / 1_000_000
  }

  lemma SecondsBounds(instant: nat)
    ensures Seconds(instant) * SECOND <= instant < (Seconds(instant) + 1) * SECOND
  {
  }

  lemma SecondsMonotone(a: nat, b: nat)
    requires a <= b
    ensures Seconds(a) <= Seconds(b)
  {
  }
}
