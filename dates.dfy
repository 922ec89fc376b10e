/** The date arithmetic of the booking window: (end - start).Days in .NET. */
module Dates {

  const TICKS_PER_DAY: int := 864_000_000_000

  /** TimeSpan.Days: whole days of a tick span, truncated toward zero (C#
      long division), not rounded down as Dafny's `/` would for a negative span. */
  function Days(span: int): (d: int)
    ensures span >= 0 ==> d * TICKS_PER_DAY <= span < (d + 1) * TICKS_PER_DAY
    ensures span < 0 ==> (d - 1) * TICKS_PER_DAY < span <= d * TICKS_PER_DAY
  {
    if span >= 0 then span / TICKS_PER_DAY else -((-span) / TICKS_PER_DAY)
  }

  /** The booking-window test shared by availability and booking: a range is
      refused when it starts before now or spans more than 30 whole days. */
  predicate DateRangeRejected(now: int, startDate: int, endDate: int)
  {
    startDate < now || Days(endDate - startDate) > 30
  }

  /** The window test in plain ticks: refused exactly when the start is past or
      the span reaches 31 full days. */
  lemma DateRangeRejectedIff(now: int, startDate: int, endDate: int)
    ensures DateRangeRejected(now, startDate, endDate)
        <==> startDate < now || endDate - startDate >= 31 * TICKS_PER_DAY
  {
  }

  /** A span of 30 days and some hours is still within the window. */
  lemma ThirtyDaysAndHoursAccepted(now: int, startDate: int, endDate: int)
    requires now <= startDate
    requires 30 * TICKS_PER_DAY <= endDate - startDate < 31 * TICKS_PER_DAY
    ensures !DateRangeRejected(now, startDate, endDate)
  {
  }

  /** An end before the start is not refused: truncation makes the day count
      of a negative span zero or negative. */
  lemma NegativeSpanAccepted(now: int, startDate: int, endDate: int)
    requires now <= startDate && endDate < startDate
    ensures !DateRangeRejected(now, startDate, endDate)
  {
  }
}
