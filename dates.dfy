/** Calendar dates as day numbers. */
module Dates {

  /** A calendar date as its proleptic Gregorian ordinal, the number Python's
      `date.toordinal()` gives it (0001-01-01 is day 1). Comparing dates is
      comparing ordinals and `date + timedelta(days=1)` is the next ordinal. */
  type Day = int

  /** `date.weekday()`: Monday is 0 and Sunday is 6. Day 1 was a Monday, and
      Python computes the weekday as `(toordinal() + 6) % 7`. */
  function Weekday(d: Day): (w: int)
    ensures 0 <= w < 7
  {
    (d + 6) % 7
  }

  /** Monday to Friday. */
  predicate IsWeekday(d: Day) {
    Weekday(d) < 5
  }

  /** Ascending and without repetitions. */
  predicate StrictlyIncreasing(ds: seq<Day>) {
    forall i, j :: 0 <= i < j < |ds| ==> ds[i] < ds[j]
  }
}
