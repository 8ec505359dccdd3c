/**
 * Calendar arithmetic on instants, as src/hooks/useGamification.ts does it
 * inline: an instant is a count of milliseconds since the Unix epoch.
 */
module Days {

  const HourMs := 60 * 60 * 1000
  const DayMs := 24 * HourMs

  /**
   * The day an instant falls in, as `toISOString().split('T')[0]` names it:
   * the UTC calendar day, here numbered from 1970-01-01. Dafny's `/` by a
   * positive divisor rounds down, like the flooring of the ISO conversion.
   */
  function DayKey(ms: int): (k: int)
    ensures k * DayMs <= ms < k * DayMs + DayMs
  {
    ms / DayMs
  }

  /** `Math.floor((to - from) / (1000 * 60 * 60 * 24))`: whole days elapsed, rounded down. */
  function DaysBetween(from: int, to: int): (d: int)
    ensures d * DayMs <= to - from < d * DayMs + DayMs
  {
    (to - from) / DayMs
  }

  /** A day key is determined by the floor bounds it satisfies. */
  lemma DayKeyUnique(ms: int, k: int)
    requires k * DayMs <= ms < k * DayMs + DayMs
    ensures DayKey(ms) == k
  {
  }

  /** Moving an instant by whole days moves its day key by as many days. */
  lemma DayKeyShift(ms: int, days: int)
    ensures DayKey(ms + days * DayMs) == DayKey(ms) + days
  {
    var k := DayKey(ms);
    DayKeyUnique(ms + days * DayMs, k + days);
  }

  /** The day key of "24 hours earlier" is the previous day (line 82 of the hook). */
  lemma YesterdayKey(ms: int)
    ensures DayKey(ms - DayMs) == DayKey(ms) - 1
  {
    DayKeyShift(ms, -1);
  }
}
