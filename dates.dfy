/**
 * ISO-8601 calendar dates in the proleptic Gregorian calendar, with the
 * arithmetic of java.time.LocalDate that the recurrence calculator uses:
 * plusDays, plusWeeks, plusMonths (day clamped to the end of the month) and
 * plusYears (29 February clamped to 28 February).
 */
module Dates {

  datatype Date = Date(year: int, month: int, day: int)

  predicate IsLeapYear(year: int) {
    year % 4 == 0 && (year % 100 != 0 || year % 400 == 0)
  }

  function DaysInMonth(year: int, month: int): (n: int)
    requires 1 <= month <= 12
    ensures 28 <= n <= 31
    ensures n == 29 <==> month == 2 && IsLeapYear(year)
  {
    if month == 2 then (if IsLeapYear(year) then 29 else 28)
    else if month == 4 || month == 6 || month == 9 || month == 11 then 30
    else 31
  }

  predicate IsValid(d: Date) {
    1 <= d.month <= 12 && 1 <= d.day <= DaysInMonth(d.year, d.month)
  }

  /** A date that exists in the calendar (java.time.LocalDate). */
  type LocalDate = d: Date | IsValid(d) witness Date(1970, 1, 1)

  function Min(a: int, b: int): int { if a <= b then a else b }

  /** LocalDate.isBefore: strictly earlier in the calendar. */
  predicate IsBefore(a: Date, b: Date) {
    a.year < b.year
    || (a.year == b.year && (a.month < b.month || (a.month == b.month && a.day < b.day)))
  }

  lemma IsBeforeTransitive(a: Date, b: Date, c: Date)
    requires IsBefore(a, b) && IsBefore(b, c)
    ensures IsBefore(a, c)
  {
  }

  /** Exactly one of a < b, a == b, b < a holds. */
  lemma IsBeforeTrichotomy(a: Date, b: Date)
    ensures IsBefore(a, b) || a == b || IsBefore(b, a)
    ensures !(IsBefore(a, b) && IsBefore(b, a))
    ensures !IsBefore(a, a)
  {
  }

  /** The calendar day after d. */
  function NextDay(d: LocalDate): (r: LocalDate)
    ensures IsBefore(d, r)
    ensures r.year == d.year || (r.year == d.year + 1 && d.month == 12 && d.day == 31 && r.month == 1 && r.day == 1)
  {
    if d.day < DaysInMonth(d.year, d.month) then Date(d.year, d.month, d.day + 1)
    else if d.month < 12 then Date(d.year, d.month + 1, 1)
    else Date(d.year + 1, 1, 1)
  }

  /** LocalDate.plusDays for a non-negative count. */
  function PlusDays(d: LocalDate, days: nat): (r: LocalDate)
    ensures days > 0 ==> IsBefore(d, r)
    decreases days
  {
    if days == 0 then d else PlusDays(NextDay(d), days - 1)
  }

  /** LocalDate.plusWeeks: seven days per week. */
  function PlusWeeks(d: LocalDate, weeks: nat): (r: LocalDate)
    ensures weeks > 0 ==> IsBefore(d, r)
  {
    PlusDays(d, 7 * weeks)
  }

  /** Position of the month of d on a continuous month scale. */
  function MonthIndex(d: Date): int {
    d.year * 12 + (d.month - 1)
  }

  /**
   * LocalDate.plusMonths: the month index advances by the count and the
   * day of month is kept, clamped to the length of the target month.
   */
  function PlusMonths(d: LocalDate, months: nat): (r: LocalDate)
    ensures MonthIndex(r) == MonthIndex(d) + months
    ensures r.day == Min(d.day, DaysInMonth(r.year, r.month))
    ensures d.day <= 28 ==> r.day == d.day
    ensures months > 0 ==> IsBefore(d, r)
  {
    var index := MonthIndex(d) + months;
    var year := index / 12;
    var month := index % 12 + 1;
    Date(year, month, Min(d.day, DaysInMonth(year, month)))
  }

  /**
   * LocalDate.plusYears: same month and day in a later year, except that
   * 29 February becomes 28 February in a year that is not a leap year.
   */
  function PlusYears(d: LocalDate, years: nat): (r: LocalDate)
    ensures r.year == d.year + years && r.month == d.month
    ensures r.day == d.day || (d.month == 2 && d.day == 29 && r.day == 28 && !IsLeapYear(r.year))
    ensures years > 0 ==> IsBefore(d, r)
  {
    var year := d.year + years;
    Date(year, d.month, Min(d.day, DaysInMonth(year, d.month)))
  }

  lemma MonthIndexDetermines(a: Date, b: Date)
    requires 1 <= a.month <= 12 && 1 <= b.month <= 12
    requires MonthIndex(a) == MonthIndex(b)
    ensures a.year == b.year && a.month == b.month
  {
  }

  /** A year is twelve months: plusYears(n) is plusMonths(12 n). */
  lemma PlusYearsIsTwelveMonths(d: LocalDate, years: nat)
    ensures PlusYears(d, years) == PlusMonths(d, 12 * years)
  {
    var y, m := PlusYears(d, years), PlusMonths(d, 12 * years);
    assert MonthIndex(y) == MonthIndex(m);
    MonthIndexDetermines(y, m);
  }
}
