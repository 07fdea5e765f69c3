/**
 * Calendar dates as Python's `datetime.date` has them: the proleptic Gregorian
 * calendar over the years 1 to 9999, with `timedelta` arithmetic that raises
 * `OverflowError` outside that range.
 */
module Dates {
  import opened Wrappers

  datatype Date = Date(year: int, month: int, day: int)

  const MinYear := 1
  const MaxYear := 9999

  /** The first and last dates Python can represent. */
  const FirstDate := Date(MinYear, 1, 1)
  const LastDate := Date(MaxYear, 12, 31)

  /** `Ordinal(LastDate)`, Python's `date.max.toordinal()`. */
  const MaxOrdinal := 3652059

  predicate IsLeapYear(y: int) {
    y % 4 == 0 && (y % 100 != 0 || y % 400 == 0)
  }

  function DaysInYear(y: int): int {
    if IsLeapYear(y) then 366 else 365
  }

  function DaysInMonth(y: int, m: int): (n: int)
    requires 1 <= m <= 12
    ensures 28 <= n <= 31
  {
    if m == 2 then (if IsLeapYear(y) then 29 else 28)
    else if m == 4 || m == 6 || m == 9 || m == 11 then 30
    else 31
  }

  /** The dates Python's `date(year, month, day)` accepts without raising `ValueError`. */
  predicate ValidDate(d: Date) {
    && MinYear <= d.year <= MaxYear
    && 1 <= d.month <= 12
    && 1 <= d.day <= DaysInMonth(d.year, d.month)
  }

  /** The dates before `b` in calendar order. */
  predicate Before(a: Date, b: Date) {
    || a.year < b.year
    || (a.year == b.year && a.month < b.month)
    || (a.year == b.year && a.month == b.month && a.day < b.day)
  }

  // ---------------------------------------------------------------------------
  // Day-by-day stepping, the way the calendar rolls over

  /** `d + timedelta(days=1)`; `None` where Python raises `OverflowError`. */
  function NextDay(d: Date): (r: Option<Date>)
    requires ValidDate(d)
    ensures r.None? <==> d == LastDate
    ensures r.Some? ==> ValidDate(r.value) && Before(d, r.value)
  {
    if d.day < DaysInMonth(d.year, d.month) then Some(Date(d.year, d.month, d.day + 1))
    else if d.month < 12 then Some(Date(d.year, d.month + 1, 1))
    else if d.year < MaxYear then Some(Date(d.year + 1, 1, 1))
    else None
  }

  /** `d - timedelta(days=1)`; `None` where Python raises `OverflowError`. */
  function PrevDay(d: Date): (r: Option<Date>)
    requires ValidDate(d)
    ensures r.None? <==> d == FirstDate
    ensures r.Some? ==> ValidDate(r.value) && Before(r.value, d)
  {
    if d.day > 1 then Some(Date(d.year, d.month, d.day - 1))
    else if d.month > 1 then Some(Date(d.year, d.month - 1, DaysInMonth(d.year, d.month - 1)))
    else if d.year > MinYear then Some(Date(d.year - 1, 12, 31))
    else None
  }

  /** Stepping forward and stepping back undo each other. */
  lemma NextPrevInverse(d: Date, e: Date)
    requires ValidDate(d) && ValidDate(e)
    ensures NextDay(d) == Some(e) <==> PrevDay(e) == Some(d)
  {
  }

  // ---------------------------------------------------------------------------
  // Day numbers, as Python's `toordinal()` counts them

  /** Days in the years before `y`. */
  function DaysBeforeYear(y: int): int
    requires y >= 1
  {
    var p := y - 1;
    p * 365 + p / 4 - p / 100 + p / 400
  }

  /** Days in the months of year `y` before month `m`. */
  function DaysBeforeMonth(y: int, m: int): int
    requires 1 <= m <= 12
  {
    [0, 31, 59, 90, 120, 151, 181, 212, 243, 273, 304, 334][m - 1]
    + (if m > 2 && IsLeapYear(y) then 1 else 0)
  }

  /** Python's `date.toordinal()`: 0001-01-01 is day 1. */
  function Ordinal(d: Date): int
    requires ValidDate(d)
  {
    DaysBeforeYear(d.year) + DaysBeforeMonth(d.year, d.month) + d.day
  }

  lemma DaysBeforeYearStep(y: int)
    requires y >= 1
    ensures DaysBeforeYear(y + 1) == DaysBeforeYear(y) + DaysInYear(y)
  {
    DivStep4(y);
    DivStep100(y);
    DivStep400(y);
  }

  /** Stepping a year on passes one more multiple of 4 exactly when the year is one. */
  lemma DivStep4(y: int)
    ensures y / 4 == (y - 1) / 4 + (if y % 4 == 0 then 1 else 0)
  {
  }

  lemma DivStep100(y: int)
    ensures y / 100 == (y - 1) / 100 + (if y % 100 == 0 then 1 else 0)
  {
  }

  lemma DivStep400(y: int)
    ensures y / 400 == (y - 1) / 400 + (if y % 400 == 0 then 1 else 0)
  {
  }

  lemma {:induction false} DaysBeforeYearMonotone(a: int, b: int)
    requires 1 <= a <= b
    ensures DaysBeforeYear(a) + 365 * (b - a) <= DaysBeforeYear(b)
    decreases b - a
  {
    if a < b {
      DaysBeforeYearStep(a);
      DaysBeforeYearMonotone(a + 1, b);
    }
  }

  /** A month's days fit between its start and the start of any later month (or the year's end). */
  lemma MonthFits(y: int, m: int, later: int)
    requires 1 <= m < later <= 13
    ensures DaysBeforeMonth(y, m) + DaysInMonth(y, m)
            <= if later == 13 then DaysInYear(y) else DaysBeforeMonth(y, later)
    ensures later == m + 1 ==>
              DaysBeforeMonth(y, m) + DaysInMonth(y, m)
              == if later == 13 then DaysInYear(y) else DaysBeforeMonth(y, later)
  {
  }

  /** Later dates have larger day numbers. */
  lemma OrdinalMonotone(a: Date, b: Date)
    requires ValidDate(a) && ValidDate(b) && Before(a, b)
    ensures Ordinal(a) < Ordinal(b)
  {
    if a.year < b.year {
      OrdinalWithinYear(a);
      DaysBeforeYearMonotone(a.year + 1, b.year);
    } else if a.month < b.month {
      MonthFits(a.year, a.month, b.month);
    }
  }

  /** A date's day number is at most the number of days before the next year. */
  lemma OrdinalWithinYear(d: Date)
    requires ValidDate(d)
    ensures Ordinal(d) <= DaysBeforeYear(d.year + 1)
  {
    MonthFits(d.year, d.month, 13);
    DaysBeforeYearStep(d.year);
  }

  /** Two valid dates with the same day number are the same date. */
  lemma OrdinalInjective(a: Date, b: Date)
    requires ValidDate(a) && ValidDate(b) && Ordinal(a) == Ordinal(b)
    ensures a == b
  {
    if Before(a, b) {
      OrdinalMonotone(a, b);
    } else if Before(b, a) {
      OrdinalMonotone(b, a);
    }
  }

  lemma LastDateOrdinal()
    ensures Ordinal(LastDate) == MaxOrdinal
  {
    assert DaysBeforeYear(MaxYear) == 3651694;
    assert DaysBeforeMonth(MaxYear, 12) == 334;
  }

  lemma OrdinalAtLeastOne(d: Date)
    requires ValidDate(d)
    ensures 1 <= Ordinal(d)
  {
    DaysBeforeYearMonotone(1, d.year);
  }

  lemma OrdinalAtMostMax(d: Date)
    requires ValidDate(d)
    ensures Ordinal(d) <= MaxOrdinal
  {
    LastDateOrdinal();
    if d != LastDate {
      OrdinalMonotone(d, LastDate);
    }
  }

  /** Every valid date lies between day 1 and `MaxOrdinal`, which are the first and last dates. */
  lemma OrdinalRange(d: Date)
    requires ValidDate(d)
    ensures 1 <= Ordinal(d) <= MaxOrdinal
  {
    OrdinalAtLeastOne(d);
    OrdinalAtMostMax(d);
  }

  /** The next day is one day number later. */
  lemma NextDayOrdinal(d: Date)
    requires ValidDate(d)
    ensures NextDay(d).Some? ==> Ordinal(NextDay(d).value) == Ordinal(d) + 1
  {
    if d.day == DaysInMonth(d.year, d.month) {
      MonthFits(d.year, d.month, d.month + 1);
      if d.month == 12 {
        DaysBeforeYearStep(d.year);
      }
    }
  }

  /** The previous day is one day number earlier. */
  lemma PrevDayOrdinal(d: Date)
    requires ValidDate(d)
    ensures PrevDay(d).Some? ==> Ordinal(PrevDay(d).value) == Ordinal(d) - 1
  {
    if d.day == 1 && d.month > 1 {
      MonthFits(d.year, d.month - 1, d.month);
    } else if d.day == 1 && d.year > MinYear {
      MonthFits(d.year - 1, 12, 13);
      DaysBeforeYearStep(d.year - 1);
    }
  }

  /**
   * `d + timedelta(days=k)`: `None` exactly when the result would leave the
   * representable range, where Python raises `OverflowError`.
   */
  function AddDays(d: Date, k: int): (r: Option<Date>)
    requires ValidDate(d)
    ensures r.Some? ==> ValidDate(r.value) && Ordinal(r.value) == Ordinal(d) + k
    ensures r.None? <==> !(1 <= Ordinal(d) + k <= MaxOrdinal)
    decreases if k < 0 then -k else k
  {
    OrdinalRange(d);
    if k == 0 then Some(d)
    else if k > 0 then
      match NextDay(d)
      case None => LastDateOrdinal(); None
      case Some(e) => NextDayOrdinal(d); AddDays(e, k - 1)
    else
      match PrevDay(d)
      case None => assert Ordinal(FirstDate) == 1; None
      case Some(e) => PrevDayOrdinal(d); AddDays(e, k + 1)
  }
}
