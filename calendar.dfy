/**
 * The calendar fields of a JavaScript `Date` read in local time
 * (`getFullYear`, `getMonth`, `getDate` and the time of day), and the
 * chronological order on them.
 */
module Calendar {

  /** A month as `Date.getMonth` numbers it: 0 is January, 11 is December. */
  type Month = m: int | 0 <= m < 12

  /** A day of the month as `Date.getDate` returns it. */
  type DayOfMonth = d: int | 1 <= d <= 31 witness 1

  /** Milliseconds since local midnight. */
  type TimeOfDay = t: int | 0 <= t < 86_400_000

  datatype Date = Date(year: int, month: Month, day: DayOfMonth, time: TimeOfDay)

  /** `a <= b` on instants: lexicographic on year, month, day and time of day. */
  predicate AtOrBefore(a: Date, b: Date)
    ensures AtOrBefore(a, b) ==> MonthIndex(a) <= MonthIndex(b)
  {
    || a.year < b.year
    || (a.year == b.year && a.month < b.month)
    || (a.year == b.year && a.month == b.month && a.day < b.day)
    || (a.year == b.year && a.month == b.month && a.day == b.day && a.time <= b.time)
  }

  /** The number of whole months from January of year 0 to the month of `d`. */
  function MonthIndex(d: Date): int
  {
    12 * d.year + d.month
  }

  /** Two instants share a month index exactly when they share year and month. */
  lemma MonthIndexInjective(a: Date, b: Date)
    ensures MonthIndex(a) == MonthIndex(b) <==> (a.year == b.year && a.month == b.month)
  {
  }

  /** The month index never runs backwards as time goes forward. */
  lemma MonthIndexMonotone(a: Date, b: Date)
    requires AtOrBefore(a, b)
    ensures MonthIndex(a) <= MonthIndex(b)
  {
    if a.year < b.year {
      assert MonthIndex(a) <= 12 * b.year - 1;
    }
  }

  /** `AtOrBefore` is a total order on instants. */
  lemma AtOrBeforeIsTotalOrder(a: Date, b: Date, c: Date)
    ensures AtOrBefore(a, a)
    ensures AtOrBefore(a, b) || AtOrBefore(b, a)
    ensures AtOrBefore(a, b) && AtOrBefore(b, a) ==> a == b
    ensures AtOrBefore(a, b) && AtOrBefore(b, c) ==> AtOrBefore(a, c)
  {
  }
}
