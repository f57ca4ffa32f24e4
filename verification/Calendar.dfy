/**
 mktime: the seconds from 1970 to a date, in 32-bit arithmetic with closed forms for the leap
 days, against the seconds obtained by summing the lengths of years and months one by one.
 */
module Calendar {
  const DAYTIME := 24 * 60 * 60
  const YEARTIME := 365 * 24 * 60 * 60
  const WORD := 0x1_0000_0000

  datatype Date = Date(year: nat, month: nat, day: nat, hour: nat, minute: nat, second: nat)

  datatype Result = Seconds(value: int) | AssertionFailed

  predicate IsLeap(year: int) {
    (year % 4 == 0 && year % 100 != 0) || year % 400 == 0
  }

  const MONTH_DAY_SUM := [0, 31, 59, 90, 120, 151, 181, 212, 243, 273, 304, 334]

  function U32(x: int): int {
    x % WORD
  }

  function LeapDays(year: nat): int {
    if year > 1972 then
      (year - 1 - 1972) / 4 + 1 + if year > 2000 then -((year - 1 - 2000) / 100) + (year - 1 - 2000) / 400 else 0
    else 0
  }

  function YearSeconds(year: nat): int {
    U32(U32(U32(year - 1970) * YEARTIME) + U32(LeapDays(year) * DAYTIME))
  }

  function MonthSeconds(year: nat, month: nat): int
    requires 0 < month < 13
  {
    MONTH_DAY_SUM[month - 1] * DAYTIME + if IsLeap(year) && month > 2 then DAYTIME else 0
  }

  function Total(years: int, months: int, days: int, hour: int, minute: int, second: int): int {
    U32(U32(U32(U32(U32(years + months) + days) + U32(U32(hour * 60) * 60)) + U32(minute * 60)) + second)
  }

  /** mktime, with every u32 operation wrapping. */
  function Mktime(d: Date): Result {
    if !(0 < d.month < 13) || !(0 < d.day < 32) then AssertionFailed
    else
      Seconds(Total(YearSeconds(d.year), MonthSeconds(d.year, d.month), (d.day - 1) * DAYTIME, d.hour, d.minute,
                    d.second))
  }

  // ---------------------------------------------------------------- the calendar

  function MonthLength(year: int, month: int): int {
    if month == 2 then (if IsLeap(year) then 29 else 28)
    else if month == 4 || month == 6 || month == 9 || month == 11 then 30
    else 31
  }

  function YearLength(year: int): int {
    if IsLeap(year) then 366 else 365
  }

  /** The days from the start of 1970 to the start of a year, year by year. */
  function DaysToYear(year: nat): int
    decreases year
  {
    if year <= 1970 then 0 else DaysToYear(year - 1) + YearLength(year - 1)
  }

  /** The days from the start of a year to the start of a month, month by month. */
  function DaysToMonth(year: nat, month: nat): int
    decreases month
  {
    if month <= 1 then 0 else DaysToMonth(year, month - 1) + MonthLength(year, month - 1)
  }

  function Days(d: Date): int {
    DaysToYear(d.year) + DaysToMonth(d.year, d.month) + d.day - 1
  }

  function TimeOfDay(d: Date): int {
    d.hour * 3600 + d.minute * 60 + d.second
  }

  function SinceEpoch(d: Date): int {
    Days(d) * DAYTIME + TimeOfDay(d)
  }

  /** A date of the calendar from 1970 on. */
  predicate IsDate(d: Date) {
    && 1970 <= d.year && 1 <= d.month <= 12 && 1 <= d.day <= MonthLength(d.year, d.month)
    && d.hour < 24 && d.minute < 60 && d.second < 60
  }

  // ---------------------------------------------------------------- the closed forms

  // A quotient grows by one exactly at the multiples of the divisor.

  lemma Carry4(n: nat)
    ensures (n + 1) / 4 == n / 4 + if (n + 1) % 4 == 0 then 1 else 0
  {
  }

  lemma Carry100(n: nat)
    ensures (n + 1) / 100 == n / 100 + if (n + 1) % 100 == 0 then 1 else 0
  {
  }

  lemma Carry400(n: nat)
    ensures (n + 1) / 400 == n / 400 + if (n + 1) % 400 == 0 then 1 else 0
  {
  }

  /** The leap-year rule, counted by inclusion and exclusion. */
  lemma LeapRule(year: nat)
    ensures (if IsLeap(year) then 1 else 0) ==
            (if year % 4 == 0 then 1 else 0) - (if year % 100 == 0 then 1 else 0) + if year % 400 == 0 then 1 else 0
  {
    if year % 100 == 0 {
      MultipleOf4(25 * (year / 100));
      assert year == 4 * (25 * (year / 100));
    }
    if year % 400 == 0 {
      MultipleOf100(4 * (year / 400));
      assert year == 100 * (4 * (year / 400));
    }
  }

  lemma MultipleOf4(n: nat)
    ensures 4 * n % 4 == 0
  {
  }

  lemma MultipleOf100(n: nat)
    ensures 100 * n % 100 == 0
  {
  }

  lemma Shifted(year: nat)
    ensures (year - 1972) % 4 == 0 <==> year % 4 == 0
    ensures (year - 2000) % 100 == 0 <==> year % 100 == 0
    ensures (year - 2000) % 400 == 0 <==> year % 400 == 0
  {
    assert year == 4 * 493 + (year - 1972) && year == 100 * 20 + (year - 2000) && year == 400 * 5 + (year - 2000);
  }

  lemma LeapDaysStep(year: nat)
    requires year >= 1970
    ensures LeapDays(year + 1) == LeapDays(year) + if IsLeap(year) then 1 else 0
  {
    LeapRule(year);
    Shifted(year);
    if year > 1972 {
      Carry4(year - 1972 - 1);
    }
    if year > 2000 {
      Carry100(year - 2000 - 1);
      Carry400(year - 2000 - 1);
    }
  }

  lemma {:induction false} YearsAreCounted(year: nat)
    requires year >= 1970
    ensures DaysToYear(year) == (year - 1970) * 365 + LeapDays(year)
  {
    if year > 1970 {
      YearsAreCounted(year - 1);
      LeapDaysStep(year - 1);
    }
  }

  lemma MonthsAreCounted(year: nat, month: nat)
    requires 1 <= month <= 12
    ensures DaysToMonth(year, month) == MONTH_DAY_SUM[month - 1] + if IsLeap(year) && month > 2 then 1 else 0
  {
    if month > 1 {
      MonthsAreCounted(year, month - 1);
    }
  }

  lemma WholeWords(x: int, n: int)
    ensures U32(x + WORD * n) == U32(x)
  {
  }

  lemma SumWraps(a: int, b: int)
    ensures U32(U32(a) + b) == U32(a + b) == U32(a + U32(b))
  {
    WholeWords(U32(a) + b, a / WORD);
    WholeWords(a + U32(b), b / WORD);
  }

  lemma ProductWraps(a: int, k: int)
    ensures U32(U32(a) * k) == U32(a * k)
  {
    WholeWords(U32(a) * k, a / WORD * k);
    assert a * k == U32(a) * k + WORD * (a / WORD * k);
  }

  /** A sum that has wrapped so far goes on as if it had not. */
  lemma SumGoesOn(sum: int, exact: int, x: int, term: int)
    requires sum == U32(exact) && (x == term || x == U32(term))
    ensures U32(sum + x) == U32(exact + term)
  {
    SumWraps(exact, x);
    SumWraps(exact, term);
  }

  lemma DateWraps(sum: int, years: int, months: int, days: int)
    requires sum == U32(years)
    ensures U32(U32(sum + months) + days) == U32(years + months + days)
  {
    SumGoesOn(sum, years, months, months);
    SumGoesOn(U32(years + months), years + months, days, days);
  }

  lemma TimeWraps(sum: int, days: int, hours: int, minutes: int, seconds: int)
    requires sum == U32(days)
    ensures U32(U32(U32(sum + U32(hours)) + U32(minutes)) + seconds) == U32(days + hours + minutes + seconds)
  {
    SumGoesOn(sum, days, U32(hours), hours);
    SumGoesOn(U32(days + hours), days + hours, U32(minutes), minutes);
    SumGoesOn(U32(days + hours + minutes), days + hours + minutes, seconds, seconds);
  }

  lemma YearSecondsCount(year: nat)
    requires year >= 1970
    ensures YearSeconds(year) == U32(DaysToYear(year) * DAYTIME)
  {
    YearsAreCounted(year);
    ProductWraps(year - 1970, YEARTIME);
    SumGoesOn(U32((year - 1970) * YEARTIME), (year - 1970) * YEARTIME, U32(LeapDays(year) * DAYTIME),
              LeapDays(year) * DAYTIME);
  }

  lemma TotalCounts(years: int, months: int, days: int, hour: int, minute: int, second: int)
    ensures Total(U32(years), months, days, hour, minute, second) ==
            U32(years + months + days + hour * 3600 + minute * 60 + second)
  {
    DateWraps(U32(years), years, months, days);
    ProductWraps(hour * 60, 60);
    TimeWraps(U32(years + months + days), years + months + days, hour * 60 * 60, minute * 60, second);
  }

  lemma MonthSecondsCount(year: nat, month: nat)
    requires 1 <= month <= 12
    ensures MonthSeconds(year, month) == DaysToMonth(year, month) * DAYTIME
  {
    MonthsAreCounted(year, month);
  }

  lemma PartsAdd(d: Date)
    ensures SinceEpoch(d) == DaysToYear(d.year) * DAYTIME + DaysToMonth(d.year, d.month) * DAYTIME
            + (d.day - 1) * DAYTIME
                             + d.hour * 3600 + d.minute * 60 + d.second
  {
  }

  lemma TotalIsSinceEpoch(d: Date, years: int, months: int)
    requires years == U32(DaysToYear(d.year) * DAYTIME) && months == DaysToMonth(d.year, d.month) * DAYTIME
    ensures Total(years, months, (d.day - 1) * DAYTIME, d.hour, d.minute, d.second) == U32(SinceEpoch(d))
  {
    PartsAdd(d);
    TotalCounts(DaysToYear(d.year) * DAYTIME, months, (d.day - 1) * DAYTIME, d.hour, d.minute, d.second);
  }

  /** mktime is right, modulo 2^32, for every date from 1970 on. */
  lemma MktimeCounts(d: Date)
    requires d.year >= 1970 && 1 <= d.month <= 12 && 1 <= d.day <= 31
    ensures Mktime(d) == Seconds(U32(SinceEpoch(d)))
  {
    YearSecondsCount(d.year);
    MonthSecondsCount(d.year, d.month);
    TotalIsSinceEpoch(d, YearSeconds(d.year), MonthSeconds(d.year, d.month));
  }

  // ---------------------------------------------------------------- POSIX

  function DayOfYear(d: Date): int {
    DaysToMonth(d.year, d.month) + d.day - 1
  }

  /** Seconds since the Epoch, POSIX.1-2017 Base Definitions, section 4.16; y counts years from 1900. */
  function Posix(d: Date): int
    requires d.year >= 1970
  {
    var y := d.year - 1900;
    d.second + d.minute * 60 + d.hour * 3600 + DayOfYear(d) * 86400 + (y - 70) * 31536000
    + (y - 69) / 4 * 86400 - (y - 1) / 100 * 86400 + (y + 299) / 400 * 86400
  }

  lemma PosixLeapDays(year: nat)
    requires year >= 1970
    ensures LeapDays(year) == (year - 1969) / 4 - (year - 1901) / 100 + (year - 1601) / 400
  {
    if year > 1972 {
      assert (year - 1969) / 4 == (year - 1973) / 4 + 1;
    }
    if year > 2000 {
      assert (year - 1901) / 100 == (year - 2001) / 100 + 1;
      assert (year - 1601) / 400 == (year - 2001) / 400 + 1;
    }
  }

  /** The formula, with the leap days before the year put together. */
  lemma PosixInDays(d: Date, leaps: int)
    requires d.year >= 1970 && leaps == (d.year - 1969) / 4 - (d.year - 1901) / 100 + (d.year - 1601) / 400
    ensures Posix(d) == ((d.year - 1970) * 365 + leaps + DayOfYear(d)) * DAYTIME + d.hour * 3600 + d.minute * 60
            + d.second
  {
    var y := d.year - 1900;
    assert y - 69 == d.year - 1969 && y - 1 == d.year - 1901 && y + 299 == d.year - 1601;
  }

  /** Summing the lengths of years and months gives the seconds that POSIX defines. */
  lemma SinceEpochIsPosix(d: Date)
    requires d.year >= 1970
    ensures SinceEpoch(d) == Posix(d)
  {
    YearsAreCounted(d.year);
    PosixLeapDays(d.year);
    PosixInDays(d, LeapDays(d.year));
  }

  // ---------------------------------------------------------------- order

  predicate Before(d: Date, e: Date) {
    if d.year != e.year then d.year < e.year
    else if d.month != e.month then d.month < e.month
    else if d.day != e.day then d.day < e.day
    else if d.hour != e.hour then d.hour < e.hour
    else if d.minute != e.minute then d.minute < e.minute
    else d.second < e.second
  }

  lemma {:induction false} LaterYear(y: nat, z: nat)
    requires 1970 <= y < z
    ensures DaysToYear(y) + YearLength(y) <= DaysToYear(z)
    decreases z
  {
    if y + 1 < z {
      LaterYear(y, z - 1);
    }
  }

  lemma {:induction false} LaterMonth(year: nat, m: nat, n: nat)
    requires 1 <= m < n
    ensures DaysToMonth(year, m) + MonthLength(year, m) <= DaysToMonth(year, n)
    decreases n
  {
    if m + 1 < n {
      LaterMonth(year, m, n - 1);
    }
  }

  lemma WholeYear(year: nat)
    ensures DaysToMonth(year, 13) == YearLength(year)
  {
    MonthsAreCounted(year, 12);
    assert DaysToMonth(year, 13) == DaysToMonth(year, 12) + MonthLength(year, 12);
  }

  lemma DayInYear(d: Date)
    requires IsDate(d)
    ensures DaysToYear(d.year) <= Days(d) < DaysToYear(d.year) + YearLength(d.year)
  {
    LaterMonth(d.year, d.month, 13);
    WholeYear(d.year);
    if d.month > 1 {
      LaterMonth(d.year, 1, d.month);
    }
  }

  lemma LaterDay(d: Date, e: Date)
    requires IsDate(d) && IsDate(e)
    requires (d.year, d.month, d.day) != (e.year, e.month, e.day) && Before(d, e)
    ensures Days(d) < Days(e)
  {
    if d.year < e.year {
      DayInYear(d);
      DayInYear(e);
      LaterYear(d.year, e.year);
    } else if d.month < e.month {
      LaterMonth(d.year, d.month, e.month);
    }
  }

  lemma TimeInDay(d: Date)
    requires IsDate(d)
    ensures 0 <= TimeOfDay(d) < DAYTIME
  {
  }

  lemma LaterTime(d: Date, e: Date)
    requires IsDate(d) && IsDate(e) && Before(d, e) && (d.year, d.month, d.day) == (e.year, e.month, e.day)
    ensures TimeOfDay(d) < TimeOfDay(e)
  {
  }

  lemma DaysOutweighTime(a: int, s: int, b: int, t: int)
    requires a < b && 0 <= s < DAYTIME && 0 <= t
    ensures a * DAYTIME + s < b * DAYTIME + t
  {
  }

  /** The seconds increase strictly with the date. */
  lemma CalendarOrder(d: Date, e: Date)
    requires IsDate(d) && IsDate(e) && Before(d, e)
    ensures SinceEpoch(d) < SinceEpoch(e)
  {
    if (d.year, d.month, d.day) != (e.year, e.month, e.day) {
      LaterDay(d, e);
      TimeInDay(d);
      TimeInDay(e);
      DaysOutweighTime(Days(d), TimeOfDay(d), Days(e), TimeOfDay(e));
    } else {
      LaterTime(d, e);
    }
  }

  const LAST := Date(2106, 2, 7, 6, 28, 15)

  lemma LastSecond()
    ensures SinceEpoch(LAST) == WORD - 1
  {
    YearsAreCounted(2106);
    assert LeapDays(2106) == 33;
    MonthsAreCounted(2106, 2);
  }

  lemma NotBeforeEpoch(d: Date)
    requires IsDate(d)
    ensures SinceEpoch(d) >= 0
  {
    DayInYear(d);
    TimeInDay(d);
    YearsAreCounted(d.year);
  }

  lemma LastThatFits(d: Date)
    requires IsDate(d)
    ensures SinceEpoch(d) < WORD <==> !Before(LAST, d)
  {
    LastSecond();
    if Before(LAST, d) {
      CalendarOrder(LAST, d);
    } else if d != LAST {
      assert Before(d, LAST);
      CalendarOrder(d, LAST);
    }
  }

  /** mktime is exact for just the dates up to 06:28:15 on 7 February 2106. */
  lemma MktimeIsExact(d: Date)
    requires IsDate(d)
    ensures Mktime(d) == Seconds(SinceEpoch(d)) <==> !Before(LAST, d)
  {
    MktimeCounts(d);
    NotBeforeEpoch(d);
    LastThatFits(d);
    FitsAWord(SinceEpoch(d));
  }

  lemma FitsAWord(x: int)
    requires x >= 0
    ensures U32(x) == x <==> x < WORD
  {
  }

  /** On those dates mktime increases strictly, so that no two of them share a value. */
  lemma MktimeIncreases(d: Date, e: Date)
    requires IsDate(d) && IsDate(e) && Before(d, e) && !Before(LAST, e)
    ensures Mktime(d).Seconds? && Mktime(e).Seconds? && Mktime(d).value < Mktime(e).value
  {
    if Before(LAST, d) {
      CalendarOrder(LAST, d);
      CalendarOrder(d, e);
    }
    MktimeIsExact(d);
    MktimeIsExact(e);
    CalendarOrder(d, e);
  }
}
