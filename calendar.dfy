/**
 * Proleptic Gregorian calendar arithmetic, as Python's `datetime` does it:
 * calendar months as (year, month) pairs, dates as (year, month, day) and the
 * day ordinal that `date.toordinal` numbers from 0001-01-01 = 1.
 */
module Calendar {

  /** A calendar month; `month` is 1..12 for every month the system builds. */
  datatype Month = Month(year: int, month: int)

  predicate ValidMonth(m: Month) {
    1 <= m.month <= 12
  }

  /** Months counted from January of year 0; consecutive months differ by one. */
  function Index(m: Month): int {
    m.year * 12 + (m.month - 1)
  }

  /** The month with a given index, with the year carried. */
  function FromIndex(k: int): (m: Month)
    ensures ValidMonth(m) && Index(m) == k
  {
    Month(k / 12, k % 12 + 1)
  }

  lemma IndexInjective(a: Month, b: Month)
    requires ValidMonth(a) && ValidMonth(b) && Index(a) == Index(b)
    ensures a == b
  {
  }

  /** pandas' `.dt.quarter`. */
  function Quarter(month: int): int {
    (month - 1) / 3 + 1
  }

  datatype Date = Date(year: int, month: int, day: int)

  function MonthOf(d: Date): Month {
    Month(d.year, d.month)
  }

  function FirstDay(m: Month): Date {
    Date(m.year, m.month, 1)
  }

  predicate IsLeap(y: int) {
    y % 4 == 0 && (y % 100 != 0 || y % 400 == 0)
  }

  function DaysInMonth(y: int, m: int): int
    requires 1 <= m <= 12
  {
    if m == 2 then (if IsLeap(y) then 29 else 28)
    else if m == 4 || m == 6 || m == 9 || m == 11 then 30
    else 31
  }

  function DaysInYear(y: int): int {
    if IsLeap(y) then 366 else 365
  }

  /** Python's `datetime` covers years 1..9999. */
  predicate ValidDate(d: Date) {
    1 <= d.year && 1 <= d.month <= 12 && 1 <= d.day <= DaysInMonth(d.year, d.month)
  }

  /** Days in the years before `y`; at least 365 per year. */
  function DaysBeforeYear(y: int): (n: int)
    requires y >= 1
    ensures n >= 365 * (y - 1)
    decreases y
  {
    if y == 1 then 0 else DaysBeforeYear(y - 1) + DaysInYear(y - 1)
  }

  /** Days in the months of year `y` before month `m` (Python's `_DAYS_BEFORE_MONTH`). */
  function DaysBeforeMonth(y: int, m: int): int
    requires 1 <= m <= 12
  {
    (if m == 1 then 0 else if m == 2 then 31 else if m == 3 then 59
     else if m == 4 then 90 else if m == 5 then 120 else if m == 6 then 151
     else if m == 7 then 181 else if m == 8 then 212 else if m == 9 then 243
     else if m == 10 then 273 else if m == 11 then 304 else 334)
    + (if m > 2 && IsLeap(y) then 1 else 0)
  }

  /** `date.toordinal()`: 0001-01-01 is day 1. */
  function Ordinal(d: Date): int
    requires ValidDate(d)
  {
    DaysBeforeYear(d.year) + DaysBeforeMonth(d.year, d.month) + d.day
  }

  lemma DaysBeforeMonthStep(y: int, m: int)
    requires 1 <= m < 12
    ensures DaysBeforeMonth(y, m + 1) == DaysBeforeMonth(y, m) + DaysInMonth(y, m)
  {
  }

  lemma {:induction false} DaysBeforeMonthMono(y: int, m1: int, m2: int)
    requires 1 <= m1 < m2 <= 12
    ensures DaysBeforeMonth(y, m1) + DaysInMonth(y, m1) <= DaysBeforeMonth(y, m2)
    decreases m2 - m1
  {
    DaysBeforeMonthStep(y, m1);
    if m1 + 1 < m2 {
      DaysBeforeMonthMono(y, m1 + 1, m2);
    }
  }

  lemma {:induction false} DaysBeforeYearMono(y1: int, y2: int)
    requires 1 <= y1 < y2
    ensures DaysBeforeYear(y1) + DaysInYear(y1) <= DaysBeforeYear(y2)
    decreases y2 - y1
  {
    if y1 + 1 < y2 {
      DaysBeforeYearMono(y1, y2 - 1);
    }
  }

  lemma DayOfYearBounds(d: Date)
    requires ValidDate(d)
    ensures 1 <= DaysBeforeMonth(d.year, d.month) + d.day <= DaysInYear(d.year)
  {
  }

  /** Distinct valid dates have distinct ordinals. */
  lemma OrdinalInjective(a: Date, b: Date)
    requires ValidDate(a) && ValidDate(b) && Ordinal(a) == Ordinal(b)
    ensures a == b
  {
    DayOfYearBounds(a);
    DayOfYearBounds(b);
    if a.year < b.year {
      DaysBeforeYearMono(a.year, b.year);
    } else if b.year < a.year {
      DaysBeforeYearMono(b.year, a.year);
    }
    assert a.year == b.year;
    if a.month < b.month {
      DaysBeforeMonthMono(a.year, a.month, b.month);
    } else if b.month < a.month {
      DaysBeforeMonthMono(a.year, b.month, a.month);
    }
  }

  /** The calendar day before `d`. */
  function PrevDay(d: Date): (p: Date)
    requires ValidDate(d) && Ordinal(d) > 1
    ensures ValidDate(p) && Ordinal(p) == Ordinal(d) - 1
  {
    if d.day > 1 then Date(d.year, d.month, d.day - 1)
    else if d.month > 1 then
      DaysBeforeMonthStep(d.year, d.month - 1);
      Date(d.year, d.month - 1, DaysInMonth(d.year, d.month - 1))
    else
      Date(d.year - 1, 12, 31)
  }

  /** `d - timedelta(days=n)` for a whole number of days. */
  function MinusDays(d: Date, n: nat): (r: Date)
    requires ValidDate(d) && Ordinal(d) > n
    ensures ValidDate(r) && Ordinal(r) == Ordinal(d) - n
    decreases n
  {
    if n == 0 then d else MinusDays(PrevDay(d), n - 1)
  }

  /** A year back from the first of a month is 365 or 366 days back. */
  lemma YearGap(y: int, m: int)
    requires y >= 2 && 1 <= m <= 12
    ensures var gap := Ordinal(Date(y, m, 1)) - Ordinal(Date(y - 1, m, 1));
            gap == 365 || gap == 366
  {
    assert DaysBeforeYear(y) == DaysBeforeYear(y - 1) + DaysInYear(y - 1);
    if m <= 2 {
      assert DaysBeforeMonth(y, m) == DaysBeforeMonth(y - 1, m);
    } else {
      assert DaysBeforeMonth(y, m) - DaysBeforeMonth(y - 1, m)
          == (if IsLeap(y) then 1 else 0) - (if IsLeap(y - 1) then 1 else 0);
    }
  }

  /** `MinusDays` lands on the one valid date with the expected ordinal. */
  lemma MinusDaysLandsOn(d: Date, n: nat, target: Date)
    requires ValidDate(d) && Ordinal(d) > n
    requires ValidDate(target) && Ordinal(target) == Ordinal(d) - n
    ensures MinusDays(d, n) == target
  {
    OrdinalInjective(MinusDays(d, n), target);
  }

  /**
   * Subtracting 365 days from the first of a month lands on the first or the
   * second of the same month one year earlier (the second when the year in
   * between holds a 29 February).
   */
  lemma YearBeforeFirstOfMonth(y: int, m: int)
    requires y >= 2 && 1 <= m <= 12
    ensures Ordinal(Date(y, m, 1)) > 365
    ensures var back := MinusDays(Date(y, m, 1), 365);
            back == Date(y - 1, m, 1) || back == Date(y - 1, m, 2)
  {
    YearGap(y, m);
    var gap := Ordinal(Date(y, m, 1)) - Ordinal(Date(y - 1, m, 1));
    if gap == 365 {
      MinusDaysLandsOn(Date(y, m, 1), 365, Date(y - 1, m, 1));
    } else {
      MinusDaysLandsOn(Date(y, m, 1), 365, Date(y - 1, m, 2));
    }
  }
}
