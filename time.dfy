/** Time as the bank-account code sees it: `LocalDateTime` values on one local
    time line, their `LocalDate`, and the `java.time.Clock` that is injected
    into the operation factories. */
module Time {

  /** A `LocalDateTime`, counted in nanoseconds (its own resolution) on the
      local time line. */
  type Instant = int

  /** A `LocalDate`, counted in days on the same line. */
  type LocalDate = int

  /** 86 400 seconds of 10^9 nanoseconds each. */
  const NanosPerDay: int := 86_400_000_000_000

  /** `LocalDateTime.toLocalDate()`: the day an instant falls on (floor
      division, so instants before the origin fall on negative days). */
  function DateOf(t: Instant): (d: LocalDate)
    ensures d * NanosPerDay <= t < (d + 1) * NanosPerDay
  {
    t / NanosPerDay
  }

  /** A later instant never falls on an earlier day. */
  lemma DateOfMonotone(s: Instant, t: Instant)
    requires s <= t
    ensures DateOf(s) <= DateOf(t)
  {
  }

  /** A `java.time.Clock`: `Clock.fixed(...)` as the tests build it, or the
      system clock that production wires in (`Clock.systemUTC()`). */
  datatype Clock = FixedClock(instant: Instant) | SystemClock {

    /** `LocalDateTime.now(clock)`. `systemNow` is what the wall clock shows at
        the moment of the call; a fixed clock ignores it. */
    function Now(systemNow: Instant): (t: Instant)
      ensures FixedClock? ==> t == instant
      ensures SystemClock? ==> t == systemNow
    {
      match this
      case FixedClock(i) => i
      case SystemClock => systemNow
    }
  }

  /** A fixed clock gives the same reading whenever it is read. */
  lemma FixedClockIsFixed(c: Clock, wall1: Instant, wall2: Instant)
    requires c.FixedClock?
    ensures c.Now(wall1) == c.Now(wall2)
  {
  }
}
