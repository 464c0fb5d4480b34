/** Proleptic Gregorian calendar arithmetic behind `pd.Timestamp(...).timestamp()`
    for a naive (UTC) whole-second date-time: the seconds-since-the-epoch
    expression of section 4.16 of the POSIX.1-2017 Base Definitions, checked
    against a day count built year by year and month by month. */
module Calendar {

  datatype DateTime = DateTime(year: int, month: int, day: int, hour: int, minute: int, second: int)

  predicate IsLeap(y: int) {
    y % 4 == 0 && (y % 100 != 0 || y % 400 == 0)
  }

  function DaysInYear(y: int): nat {
    if IsLeap(y) then 366 else 365
  }

  function DaysInMonth(y: int, m: int): nat
    requires 1 <= m <= 12
  {
    if m == 2 then (if IsLeap(y) then 29 else 28)
    else if m == 4 || m == 6 || m == 9 || m == 11 then 30
    else 31
  }

  /** Days of the year before the first of month `m` (the table POSIX
      implementations use, with the leap day after February). */
  function DaysBeforeMonth(y: int, m: int): nat
    requires 1 <= m <= 12
  {
    [0, 31, 59, 90, 120, 151, 181, 212, 243, 273, 304, 334][m - 1]
    + if m > 2 && IsLeap(y) then 1 else 0
  }

  /** The fields pandas accepts when it builds a Timestamp from components. */
  predicate ValidFields(t: DateTime) {
    && 1 <= t.month <= 12
    && 1 <= t.day <= DaysInMonth(t.year, t.month)
    && 0 <= t.hour < 24
    && 0 <= t.minute < 60
    && 0 <= t.second < 60
  }

  /** `tm_yday`: days since January 1 of the same year. */
  function YearDay(t: DateTime): int
    requires 1 <= t.month <= 12
  {
    DaysBeforeMonth(t.year, t.month) + t.day - 1
  }

  /** Seconds since 1970-01-01 00:00:00 UTC, as POSIX writes it with
      `tm_year = year - 1900`; the divisions are floor divisions (Dafny's `/`
      on a positive divisor), which keeps the expression exact for years before
      1970 too. */
  function EpochSeconds(t: DateTime): int
    requires 1 <= t.month <= 12
  {
    var ty := t.year - 1900;
    t.second + t.minute * 60 + t.hour * 3600 + YearDay(t) * 86400
    + (ty - 70) * 31536000 + ((ty - 69) / 4) * 86400
    - ((ty - 1) / 100) * 86400 + ((ty + 299) / 400) * 86400
  }

  // ------------------------------------------------------------ reference day count

  /** Days from 1970-01-01 to January 1 of year `y`, counted year by year. */
  function DaysBeforeYear(y: int): int
    decreases if y < 1970 then 1970 - y else y - 1970
  {
    if y == 1970 then 0
    else if y > 1970 then DaysBeforeYear(y - 1) + DaysInYear(y - 1)
    else DaysBeforeYear(y + 1) - DaysInYear(y)
  }

  /** Days of year `y` before month `m`, counted month by month. */
  function DaysBeforeMonthCounted(y: int, m: int): nat
    requires 1 <= m <= 12
  {
    if m == 1 then 0 else DaysBeforeMonthCounted(y, m - 1) + DaysInMonth(y, m - 1)
  }

  /** Days from 1970-01-01 to the date of `t`. */
  function DayNumber(t: DateTime): int
    requires 1 <= t.month <= 12
  {
    DaysBeforeYear(t.year) + DaysBeforeMonthCounted(t.year, t.month) + t.day - 1
  }

  function SecondOfDay(t: DateTime): int {
    t.hour * 3600 + t.minute * 60 + t.second
  }

  /** The leap days POSIX adds for the years from 1970 up to `y`. */
  function LeapDays(y: int): int {
    (y - 1969) / 4 - (y - 1901) / 100 + (y - 1601) / 400
  }

  lemma Div4(x: int, q: int, r: int)
    requires x == 4 * q + r && 0 <= r < 4
    ensures x / 4 == q
  {
  }

  lemma Div100(x: int, q: int, r: int)
    requires x == 100 * q + r && 0 <= r < 100
    ensures x / 100 == q
  {
  }

  lemma Div400(x: int, q: int, r: int)
    requires x == 400 * q + r && 0 <= r < 400
    ensures x / 400 == q
  {
  }

  lemma Step4(y: int)
    ensures (y - 1968) / 4 - (y - 1969) / 4 == if y % 4 == 0 then 1 else 0
  {
    var q, r := y / 4, y % 4;
    Div4(y - 1968, q - 492, r);
    if r == 0 {
      Div4(y - 1969, q - 493, 3);
    } else {
      Div4(y - 1969, q - 492, r - 1);
    }
  }

  lemma Step100(y: int)
    ensures (y - 1900) / 100 - (y - 1901) / 100 == if y % 100 == 0 then 1 else 0
  {
    var q, r := y / 100, y % 100;
    Div100(y - 1900, q - 19, r);
    if r == 0 {
      Div100(y - 1901, q - 20, 99);
    } else {
      Div100(y - 1901, q - 19, r - 1);
    }
  }

  lemma Step400(y: int)
    ensures (y - 1600) / 400 - (y - 1601) / 400 == if y % 400 == 0 then 1 else 0
  {
    var q, r := y / 400, y % 400;
    Div400(y - 1600, q - 4, r);
    if r == 0 {
      Div400(y - 1601, q - 5, 399);
    } else {
      Div400(y - 1601, q - 4, r - 1);
    }
  }

  /** Each year adds one leap day to the POSIX count exactly when it is a
      leap year. */
  lemma LeapDaysStep(y: int)
    ensures LeapDays(y + 1) - LeapDays(y) == if IsLeap(y) then 1 else 0
  {
    Step4(y);
    Step100(y);
    Step400(y);
  }

  /** The POSIX year term counts exactly the days of the years between 1970
      and `y`. */
  lemma {:induction false} YearTermCountsDays(y: int)
    ensures (y - 1970) * 365 + LeapDays(y) == DaysBeforeYear(y)
    decreases if y < 1970 then 1970 - y else y - 1970
  {
    if y > 1970 {
      YearTermCountsDays(y - 1);
      LeapDaysStep(y - 1);
    } else if y < 1970 {
      YearTermCountsDays(y + 1);
      LeapDaysStep(y);
    }
  }

  lemma {:induction false} MonthTableCountsDays(y: int, m: int)
    requires 1 <= m <= 12
    ensures DaysBeforeMonth(y, m) == DaysBeforeMonthCounted(y, m)
  {
    if m > 1 {
      MonthTableCountsDays(y, m - 1);
    }
  }

  /** The POSIX expression equals the day count times 86400 plus the second of
      the day. */
  lemma EpochSecondsCountsDays(t: DateTime)
    requires 1 <= t.month <= 12
    ensures EpochSeconds(t) == DayNumber(t) * 86400 + SecondOfDay(t)
  {
    YearTermCountsDays(t.year);
    MonthTableCountsDays(t.year, t.month);
  }

  // ------------------------------------------------------------ ordering

  /** Lexicographic order on the six fields: the chronological order of valid
      date-times. */
  predicate Before(a: DateTime, b: DateTime) {
    || a.year < b.year
    || (a.year == b.year && a.month < b.month)
    || (a.year == b.year && a.month == b.month && a.day < b.day)
    || (a.year == b.year && a.month == b.month && a.day == b.day && a.hour < b.hour)
    || (a.year == b.year && a.month == b.month && a.day == b.day && a.hour == b.hour
        && a.minute < b.minute)
    || (a.year == b.year && a.month == b.month && a.day == b.day && a.hour == b.hour
        && a.minute == b.minute && a.second < b.second)
  }

  lemma {:induction false} DaysBeforeYearGrows(y1: int, y2: int)
    requires y1 < y2
    ensures DaysBeforeYear(y1) + DaysInYear(y1) <= DaysBeforeYear(y2)
    decreases y2 - y1
  {
    if y1 + 1 < y2 {
      DaysBeforeYearGrows(y1, y2 - 1);
      if y2 - 1 > 1970 {
      } else {
        assert DaysBeforeYear(y2 - 1) == DaysBeforeYear(y2) - DaysInYear(y2 - 1);
      }
    } else if y2 <= 1970 {
      assert DaysBeforeYear(y1) == DaysBeforeYear(y2) - DaysInYear(y1);
    }
  }

  lemma {:induction false} MonthsGrow(y: int, m1: int, m2: int)
    requires 1 <= m1 < m2 <= 12
    ensures DaysBeforeMonthCounted(y, m1) + DaysInMonth(y, m1) <= DaysBeforeMonthCounted(y, m2)
    decreases m2 - m1
  {
    if m1 + 1 < m2 {
      MonthsGrow(y, m1, m2 - 1);
    }
  }

  lemma YearDayBound(t: DateTime)
    requires ValidFields(t)
    ensures DaysBeforeMonthCounted(t.year, t.month) + t.day <= DaysInYear(t.year)
  {
    MonthTableCountsDays(t.year, t.month);
  }

  lemma {:induction false} DayNumberMonotone(a: DateTime, b: DateTime)
    requires ValidFields(a) && ValidFields(b)
    requires a.year < b.year
      || (a.year == b.year && a.month < b.month)
      || (a.year == b.year && a.month == b.month && a.day < b.day)
    ensures DayNumber(a) < DayNumber(b)
  {
    if a.year < b.year {
      YearDayBound(a);
      DaysBeforeYearGrows(a.year, b.year);
    } else if a.month < b.month {
      MonthsGrow(a.year, a.month, b.month);
    }
  }

  /** Later date-times have strictly larger epoch seconds: the conversion is
      strictly increasing (and therefore one-to-one) on valid date-times. */
  lemma EpochSecondsStrictlyIncreasing(a: DateTime, b: DateTime)
    requires ValidFields(a) && ValidFields(b)
    requires Before(a, b)
    ensures EpochSeconds(a) < EpochSeconds(b)
  {
    EpochSecondsCountsDays(a);
    EpochSecondsCountsDays(b);
    if a.year < b.year
      || (a.year == b.year && a.month < b.month)
      || (a.year == b.year && a.month == b.month && a.day < b.day)
    {
      DayNumberMonotone(a, b);
    }
  }

  // ------------------------------------------------------------ pandas bounds

  /** A pandas Timestamp holds nanoseconds since the epoch in a signed 64-bit
      integer whose least value is reserved for NaT; for whole seconds that
      leaves these bounds. */
  const MinSeconds: int := -9223372036
  const MaxSeconds: int := 9223372036

  /** The date-times `pd.Timestamp(year, month, day, hour, minute, second)`
      constructs without raising. */
  predicate IsTimestamp(t: DateTime) {
    ValidFields(t) && MinSeconds <= EpochSeconds(t) <= MaxSeconds
  }
}
