/**
 * Timestamps are integer milliseconds. Day boundaries are fixed to UTC: a day
 * starts at a multiple of DayMs. The wall clock is never read; "now" and
 * "today" are parameters.
 */
module Time {

  /** `24 * 60 * 60 * 1000`, the length of a day in milliseconds. */
  const DayMs: int := 24 * 60 * 60 * 1000

  /** `setHours(0, 0, 0, 0)` has been applied: the instant is midnight. */
  predicate IsDayStart(t: int) {
    t % DayMs == 0
  }

  /** Two midnights less than a day apart are the same midnight. */
  lemma DayStartsInOneDayAreEqual(a: int, b: int)
    requires IsDayStart(a) && IsDayStart(b)
    requires b <= a < b + DayMs
    ensures a == b
  {
    var qa, qb := a / DayMs, b / DayMs;
    assert a == DayMs * qa;
    assert b == DayMs * qb;
    assert 0 <= DayMs * (qa - qb) < DayMs;
  }

  /**
   * `Math.floor((later - earlier) / DayMs)`. Dafny's `/` on `int` is Euclidean,
   * which coincides with floor division because the divisor is positive.
   */
  function DayGap(later: int, earlier: int): int {
    (later - earlier) / DayMs
  }

  /** DayGap is the floor of the quotient, also for negative differences. */
  lemma DayGapIsFloor(later: int, earlier: int)
    ensures DayGap(later, earlier) * DayMs <= later - earlier < (DayGap(later, earlier) + 1) * DayMs
  {
    var d := later - earlier;
    assert d == DayMs * (d / DayMs) + d % DayMs;
  }

  /** A gap of at most one day means: the earlier instant is less than two days earlier. */
  lemma WithinOneDay(later: int, earlier: int)
    ensures DayGap(later, earlier) <= 1 <==> later - earlier < 2 * DayMs
  {
    DayGapIsFloor(later, earlier);
    var g := DayGap(later, earlier);
    if g <= 1 {
      assert (g + 1) * DayMs <= 2 * DayMs;
    } else {
      assert g * DayMs >= 2 * DayMs;
    }
  }
}
