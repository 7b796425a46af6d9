/**
 * `java.util.concurrent.TimeUnit.toMillis`, used by `revoke(Integer, TimeUnit)`,
 * `revokeOn` and `retryIntervalOf` to turn a period into milliseconds.
 */
module Durations {

  /** A Java `Integer` / `int`. */
  type Int32 = x: int | -0x8000_0000 <= x < 0x8000_0000

  /** The range of a Java `long`. */
  predicate InLongRange(x: int)
  {
    -0x8000_0000_0000_0000 <= x < 0x8000_0000_0000_0000
  }

  datatype TimeUnit = NANOSECONDS | MICROSECONDS | MILLISECONDS | SECONDS | MINUTES | HOURS | DAYS

  /** Length of one unit in nanoseconds. */
  function NanosPerUnit(u: TimeUnit): nat
  {
    match u
    case NANOSECONDS => 1
    case MICROSECONDS => 1_000
    case MILLISECONDS => 1_000_000
    case SECONDS => 1_000_000_000
    case MINUTES => 60_000_000_000
    case HOURS => 3_600_000_000_000
    case DAYS => 86_400_000_000_000
  }

  /** Java's `/` on integers, which truncates toward zero. */
  function JavaDiv(a: int, b: int): int
    requires b > 0
  {
    if a >= 0 then a / b else -((-a) / b)
  }

  /**
   * `u.toMillis(d)`: the whole number of milliseconds in `d` units, truncated
   * toward zero for the units finer than a millisecond. Java saturates a
   * result that leaves the `long` range; for an `Integer` period that never
   * happens, which the postcondition records.
   */
  function ToMillis(u: TimeUnit, d: Int32): (ms: int)
    ensures InLongRange(ms)
  {
    match u
    case NANOSECONDS => JavaDiv(d, 1_000_000)
    case MICROSECONDS => JavaDiv(d, 1_000)
    case MILLISECONDS => d
    case SECONDS => d * 1_000
    case MINUTES => d * 60_000
    case HOURS => d * 3_600_000
    case DAYS => d * 86_400_000
  }

  /**
   * The milliseconds are the period's length in nanoseconds divided by a
   * million, truncated toward zero: within one millisecond of the exact
   * value and of the same sign.
   */
  lemma ToMillisTruncates(u: TimeUnit, d: Int32)
    ensures var ms := ToMillis(u, d);
      && (d >= 0 ==> 0 <= ms * 1_000_000 <= d * NanosPerUnit(u) < ms * 1_000_000 + 1_000_000)
      && (d < 0 ==> ms * 1_000_000 - 1_000_000 < d * NanosPerUnit(u) <= ms * 1_000_000 <= 0)
  {
    match u
    case NANOSECONDS =>
    case MICROSECONDS =>
    case MILLISECONDS =>
    case SECONDS =>
    case MINUTES =>
    case HOURS =>
    case DAYS =>
  }
}
