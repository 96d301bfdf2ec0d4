/** Gregorian dates, as the certificate rules use them. */
module Calendar {
  import opened Options

  datatype Date = Date(year: int, month: int, day: int) {
    predicate Valid() {
      1 <= year <= 9999 && 1 <= month <= 12 && 1 <= day <= DaysInMonth(year, month)
    }

    predicate Before(other: Date) {
      || year < other.year
      || (year == other.year && month < other.month)
      || (year == other.year && month == other.month && day < other.day)
    }

    /** The proleptic day number, 1 for 0001-01-01. */
    function Ordinal(): int
      requires 1 <= month <= 12
    {
      DaysBeforeYear(year) + DaysBeforeMonth(year, month) + day
    }
  }

  predicate LeapYear(year: int) {
    year % 4 == 0 && (year % 100 != 0 || year % 400 == 0)
  }

  function DaysInMonth(year: int, month: int): int
    requires 1 <= month <= 12
  {
    if month == 2 then (if LeapYear(year) then 29 else 28)
    else if month in {4, 6, 9, 11} then 30
    else 31
  }

  function DaysBeforeYear(year: int): int {
    365 * (year - 1) + (year - 1) / 4 - (year - 1) / 100 + (year - 1) / 400
  }

  function DaysBeforeMonth(year: int, month: int): int
    requires 1 <= month <= 12
  {
    [0, 31, 59, 90, 120, 151, 181, 212, 243, 273, 304, 334][month - 1]
    + if month > 2 && LeapYear(year) then 1 else 0
  }

  /**
   Whole calendar months later, the day clamped to the length of the target month.
   None when the target year is outside 1..9999, where the date cannot be built.
   */
  function AddCalendarMonths(start: Date, months: int): Option<Date> {
    var monthIndex := start.month - 1 + months;
    var year := start.year + monthIndex / 12;
    var month := monthIndex % 12 + 1;
    if !(1 <= year <= 9999) then None else
      var last := DaysInMonth(year, month);
      Some(Date(year, month, if start.day <= last then start.day else last))
  }

  /**
   The result is a valid date, exactly `months` months later, whose day is the largest
   one not above the start's day that the target month has.
   */
  lemma AddCalendarMonthsExact(start: Date, months: int)
    requires start.Valid()
    ensures var shifted := 12 * start.year + start.month - 1 + months;
            match AddCalendarMonths(start, months)
            case None => shifted < 12 || shifted >= 120000
            case Some(r) =>
              && r.Valid()
              && 12 * r.year + r.month - 1 == shifted
              && r.day <= start.day
              && forall day: int {:trigger Date(r.year, r.month, day)} | r.day < day <= start.day ::
                   !Date(r.year, r.month, day).Valid()
  {
  }

  lemma AddCalendarMonthsMonotone(a: Date, b: Date, months: int)
    requires a.Valid() && b.Valid() && !b.Before(a)
    requires AddCalendarMonths(a, months).Some? && AddCalendarMonths(b, months).Some?
    ensures !AddCalendarMonths(b, months).value.Before(AddCalendarMonths(a, months).value)
  {
    AddCalendarMonthsExact(a, months);
    AddCalendarMonthsExact(b, months);
  }

  /** Clamping loses days, so adding months is not injective and cannot be undone. */
  lemma AddCalendarMonthsNotInjective()
    ensures AddCalendarMonths(Date(2023, 11, 30), 3)
            == AddCalendarMonths(Date(2023, 11, 29), 3) == Some(Date(2024, 2, 29))
  {
  }

  lemma YearLength(year: int)
    ensures DaysBeforeYear(year + 1) == DaysBeforeYear(year) + (if LeapYear(year) then 366 else 365)
  {
    assert year / 4 - (year - 1) / 4 == if year % 4 == 0 then 1 else 0;
    assert year / 100 - (year - 1) / 100 == if year % 100 == 0 then 1 else 0;
    assert year / 400 - (year - 1) / 400 == if year % 400 == 0 then 1 else 0;
    Multiples(year);
  }

  lemma Multiples(year: int)
    ensures year % 400 == 0 ==> year % 100 == 0
    ensures year % 100 == 0 ==> year % 4 == 0
  {
    assert year % 400 - year % 100 == 100 * (year / 100 - 4 * (year / 400));
    assert year % 100 - year % 4 == 4 * (year / 4 - 25 * (year / 100));
  }

  lemma {:induction false} YearsAscend(y: int, z: int)
    requires y < z
    ensures DaysBeforeYear(y) + (if LeapYear(y) then 366 else 365) <= DaysBeforeYear(z)
    decreases z - y
  {
    YearLength(y);
    if y + 1 < z {
      YearsAscend(y + 1, z);
    }
  }

  lemma MonthsFit(year: int, month: int)
    requires 1 <= month <= 12
    ensures DaysBeforeMonth(year, month) + DaysInMonth(year, month)
         == if month < 12 then DaysBeforeMonth(year, month + 1) else if LeapYear(year) then 366 else 365
  {
    var days := [0, 31, 59, 90, 120, 151, 181, 212, 243, 273, 304, 334];
    assert days[month - 1] >= 0;
  }

  lemma MonthsAscend(year: int, m: int, n: int)
    requires 1 <= m < n <= 12
    ensures DaysBeforeMonth(year, m) + DaysInMonth(year, m) <= DaysBeforeMonth(year, n)
    decreases n - m
  {
    MonthsFit(year, m);
    if m + 1 < n {
      MonthsAscend(year, m + 1, n);
    }
  }

  /** Day numbers order dates exactly as the calendar does. */
  lemma OrdinalOrders(a: Date, b: Date)
    requires a.Valid() && b.Valid()
    ensures a.Before(b) <==> a.Ordinal() < b.Ordinal()
  {
    BeforeAscends(a, b);
    BeforeAscends(b, a);
  }

  lemma BeforeAscends(a: Date, b: Date)
    requires a.Valid() && b.Valid()
    ensures a.Before(b) ==> a.Ordinal() < b.Ordinal()
  {
    MonthsFit(a.year, a.month);
    if a.year < b.year {
      YearsAscend(a.year, b.year);
      if a.month < 12 {
        MonthsAscend(a.year, a.month, 12);
        MonthsFit(a.year, 12);
      }
    } else if a.year == b.year && a.month < b.month {
      MonthsAscend(a.year, a.month, b.month);
    }
  }

  /** The latest of the first months of a year that has begun after so many days. */
  function MonthAfter(year: int, days: nat, month: int): (m: int)
    requires 1 <= month <= 12
    ensures 1 <= m <= month && DaysBeforeMonth(year, m) <= days
    ensures m < month ==> days < DaysBeforeMonth(year, m + 1)
    decreases month
  {
    if month == 1 || DaysBeforeMonth(year, month) <= days then month else MonthAfter(year, days, month - 1)
  }

  /** The date so many days after the first of January. */
  function DateInYear(year: int, days: nat): (date: Date)
    requires 1 <= year <= 9999 && days < if LeapYear(year) then 366 else 365
    ensures date.Valid() && date.Ordinal() == DaysBeforeYear(year) + days + 1
  {
    var month := MonthAfter(year, days, 12);
    MonthsFit(year, month);
    Date(year, month, days - DaysBeforeMonth(year, month) + 1)
  }
}
