/** Calendar dates, compared the way Python compares `datetime.date` values. */
module Dates {

  datatype Date = Date(year: int, month: int, day: int)

  /** Strictly earlier: lexicographic on (year, month, day). */
  predicate Before(a: Date, b: Date) {
    a.year < b.year
    || (a.year == b.year && (a.month < b.month || (a.month == b.month && a.day < b.day)))
  }

  /** `a >= b` on dates. */
  predicate AtOrAfter(a: Date, b: Date) {
    !Before(a, b)
  }
}
