/** Nanoseconds and the milliseconds that clocks and leases are counted in. */
module Clock {
  // Timers and durations are exact to the nanosecond. A stored time is a whole number of milliseconds,
  // and so are a lease in the database and a difference of stored times.

  const MILLI: nat := 1_000_000
  const SECOND: nat := 1_000_000_000

  /** The milliseconds that have passed at `t`, as UnixMilli and the database clock count them. */
  function Millis(t: int): int {
    t / MILLI
  }

  /** A whole duration in milliseconds, rounded down. */
  function WholeMillis(d: nat): nat {
    d / MILLI
  }

  /** Nanoseconds in `k` milliseconds. */
  function Span(k: nat): nat {
    k * MILLI
  }

  lemma MillisMonotone(a: int, b: int)
    requires a <= b
    ensures Millis(a) <= Millis(b)
  {
  }

  /** Within `k` milliseconds a clock counts at most `k`, from then on at least `k`. */
  lemma Counts(a: int, b: int, k: nat)
    ensures b - a <= Span(k) ==> Millis(b) <= Millis(a) + k
    ensures b - a >= Span(k) ==> Millis(b) >= Millis(a) + k
  {
  }

  /** A clock that has just counted is exact. */
  lemma JustCounted(a: int, d: int)
    requires a % MILLI == 0
    ensures Millis(a + d) - Millis(a) == Millis(d)
  {
  }

  /** A clock about to count counts one early. */
  lemma AboutToCount(a: int, d: int)
    requires a % MILLI == MILLI - 1
    ensures Millis(a + d) - Millis(a) == Millis(d + MILLI - 1)
  {
  }

  lemma WholeIsLess(d: nat)
    ensures d < Span(WholeMillis(d)) + MILLI && Span(WholeMillis(d)) <= d
  {
  }
}
