/** frontend/src/utils/daysBetweenDates.ts: the whole days between two instants, given as
    milliseconds since the epoch, rounded down. */
module DaysBetweenDates {

  /** `msPerDay`. */
  const MsPerDay: int := 24 * 60 * 60 * 1000

  /** `Math.floor((end - start) / msPerDay)`. Dafny's division by a positive divisor rounds
      down, as `Math.floor` does, negative differences included. */
  function DaysBetween(startMs: int, endMs: int): (days: int)
    ensures days * MsPerDay <= endMs - startMs < (days + 1) * MsPerDay
  {
    (endMs - startMs) / MsPerDay
  }

  /** The day count is the only number whose whole days fit the difference. */
  lemma FloorUnique(diff: int, days: int)
    requires days * MsPerDay <= diff < (days + 1) * MsPerDay
    ensures diff / MsPerDay == days
  {
    var q := diff / MsPerDay;
    assert q * MsPerDay <= diff < (q + 1) * MsPerDay;
  }

  /** Equal instants are zero days apart. */
  lemma SameInstantIsZero(t: int)
    ensures DaysBetween(t, t) == 0
  {
  }

  /** An end one millisecond before the start is one day back, not zero: the result rounds
      toward minus infinity. */
  lemma OneMillisecondBackIsMinusOne(t: int)
    ensures DaysBetween(t, t - 1) == -1
  {
    FloorUnique(-1, -1);
  }

  /** Moving the end by `k` whole days moves the count by exactly `k`. */
  lemma ShiftByWholeDays(startMs: int, endMs: int, k: int)
    ensures DaysBetween(startMs, endMs + k * MsPerDay) == DaysBetween(startMs, endMs) + k
  {
    var d := DaysBetween(startMs, endMs);
    assert (d + k) * MsPerDay == d * MsPerDay + k * MsPerDay;
    assert (d + k + 1) * MsPerDay == (d + 1) * MsPerDay + k * MsPerDay;
    FloorUnique(endMs + k * MsPerDay - startMs, d + k);
  }
}
