/** The proleptic Gregorian UTC calendar of section 21.4.1 of ECMA-262, over day and minute
    numbers counted from 1970-01-01T00:00Z. */
module Calendar {

  const MINUTES_PER_DAY := 1440

  /** Number of the first day of a year. */
  function DayFromYear(y: int): int {
    365 * (y - 1970) + (y - 1969) / 4 - (y - 1901) / 100 + (y - 1601) / 400
  }

  predicate IsLeap(y: int) {
    (y % 4 == 0 && y % 100 != 0) || y % 400 == 0
  }

  lemma FloorStep(x: int, d: int)
    requires d == 4 || d == 100 || d == 400
    ensures (x + 1) / d == x / d + (if (x + 1) % d == 0 then 1 else 0)
  {
  }

  lemma YearLength(y: int)
    ensures DayFromYear(y + 1) == DayFromYear(y) + (if IsLeap(y) then 366 else 365)
  {
    FloorStep(y - 1969, 4);
    FloorStep(y - 1901, 100);
    FloorStep(y - 1601, 400);
    Residue4(y);
    Residue100(y);
    Residue400(y);
    Centuries(y);
  }

  lemma Residue4(y: int)
    ensures (y - 1968) % 4 == y % 4
  {
    assert y - 1968 == 4 * (y / 4 - 492) + y % 4;
  }

  lemma Residue100(y: int)
    ensures (y - 1900) % 100 == y % 100
  {
    assert y - 1900 == 100 * (y / 100 - 19) + y % 100;
  }

  lemma Residue400(y: int)
    ensures (y - 1600) % 400 == y % 400
  {
    assert y - 1600 == 400 * (y / 400 - 4) + y % 400;
  }

  lemma Centuries(y: int)
    ensures y % 400 == 0 ==> y % 100 == 0
    ensures y % 100 == 0 ==> y % 4 == 0
  {
  }

  /** The largest year whose first day is not after `day`, searched upwards from `y`. */
  function YearUpFrom(day: int, y: int): (r: int)
    requires DayFromYear(y) <= day
    ensures DayFromYear(r) <= day < DayFromYear(r + 1)
    decreases day - DayFromYear(y)
  {
    YearLength(y);
    if day < DayFromYear(y + 1) then y else YearUpFrom(day, y + 1)
  }

  /** A year that begins on or before the day. */
  function StartYear(day: int): int {
    if day >= 0 then 1970 + day / 366 else 1970 + day / 365 - 1
  }

  lemma StartIsBefore(day: int)
    ensures DayFromYear(StartYear(day)) <= day
  {
    assert DayFromYear(1970) == 0;
    hide DayFromYear;
    var y := StartYear(day);
    if day >= 0 {
      YearsOrdered(1970, y);
      assert 366 * (day / 366) <= day;
    } else {
      YearsOrdered(y, 1970);
      assert 365 * (day / 365 - 1) <= day;
    }
  }

  function YearOfDay(day: int): (y: int)
    ensures DayFromYear(y) <= day < DayFromYear(y + 1)
  {
    StartIsBefore(day);
    YearUpFrom(day, StartYear(day))
  }

  lemma {:induction false} YearsOrdered(a: int, b: int)
    requires a <= b
    ensures DayFromYear(a) + 365 * (b - a) <= DayFromYear(b) <= DayFromYear(a) + 366 * (b - a)
    decreases b - a
  {
    if a < b {
      YearsOrdered(a, b - 1);
      YearLength(b - 1);
    }
  }

  lemma YearUnique(day: int, y: int)
    requires DayFromYear(y) <= day < DayFromYear(y + 1)
    ensures YearOfDay(day) == y
  {
    hide DayFromYear;
    hide YearOfDay;
    var r := YearOfDay(day);
    if r < y { YearsOrdered(r + 1, y); }
    if y < r { YearsOrdered(y + 1, r); }
  }

  /** Days of the year before month `m` (1..13). */
  function DaysBefore(m: int, leap: bool): int
    requires 1 <= m <= 13
  {
    [0, 31, 59, 90, 120, 151, 181, 212, 243, 273, 304, 334, 365][m - 1] + (if leap && m > 2 then 1 else 0)
  }

  function DaysInMonth(m: int, leap: bool): (n: int)
    requires 1 <= m <= 12
    ensures 28 <= n <= 31
  {
    DaysBefore(m + 1, leap) - DaysBefore(m, leap)
  }

  /** The month whose days include the `dayInYear`-th day of the year, searched upwards from `m`. */
  function MonthUpFrom(dayInYear: int, leap: bool, m: int): (r: int)
    requires 1 <= m <= 12
    requires DaysBefore(m, leap) <= dayInYear < (if leap then 366 else 365)
    ensures 1 <= r <= 12 && DaysBefore(r, leap) <= dayInYear < DaysBefore(r + 1, leap)
    decreases 12 - m
  {
    if dayInYear < DaysBefore(m + 1, leap) then m else MonthUpFrom(dayInYear, leap, m + 1)
  }

  datatype Date = Date(year: int, month: int, day: int)

  predicate ValidDate(d: Date) {
    1 <= d.month <= 12 && 1 <= d.day <= DaysInMonth(d.month, IsLeap(d.year))
  }

  /** The date of the `dayInYear`-th day (from 0) of year `y`. */
  function DateInYear(y: int, dayInYear: int): (d: Date)
    requires 0 <= dayInYear < (if IsLeap(y) then 366 else 365)
    ensures ValidDate(d) && d.year == y
    ensures DaysBefore(d.month, IsLeap(y)) + d.day - 1 == dayInYear
  {
    var m := MonthUpFrom(dayInYear, IsLeap(y), 1);
    Date(y, m, dayInYear - DaysBefore(m, IsLeap(y)) + 1)
  }

  lemma DayInYear(day: int)
    ensures var y := YearOfDay(day); 0 <= day - DayFromYear(y) < (if IsLeap(y) then 366 else 365)
  {
    hide DayFromYear;
    hide YearOfDay;
    hide IsLeap;
    YearLength(YearOfDay(day));
  }

  function DateOfDay(day: int): (d: Date)
    ensures ValidDate(d)
    ensures d.year == YearOfDay(day)
  {
    var y := YearOfDay(day);
    DayInYear(day);
    DateInYear(y, day - DayFromYear(y))
  }

  function DayOfDate(d: Date): int
    requires ValidDate(d)
  {
    DayFromYear(d.year) + DaysBefore(d.month, IsLeap(d.year)) + d.day - 1
  }

  lemma DaysBeforeMonotone(a: int, b: int, leap: bool)
    requires 1 <= a <= b <= 13
    ensures DaysBefore(a, leap) <= DaysBefore(b, leap)
  {
  }

  /** Dates and day numbers are in one-to-one correspondence. */
  lemma DateRoundTrip(d: Date)
    requires ValidDate(d)
    ensures DateOfDay(DayOfDate(d)) == d
  {
    hide DayFromYear;
    hide YearOfDay;
    hide IsLeap;
    var leap := IsLeap(d.year);
    var day := DayOfDate(d);
    YearLength(d.year);
    DaysBeforeMonotone(1, d.month, leap);
    DaysBeforeMonotone(d.month + 1, 13, leap);
    YearUnique(day, d.year);
    var m := DateOfDay(day).month;
    if m < d.month { DaysBeforeMonotone(m + 1, d.month, leap); }
    if d.month < m { DaysBeforeMonotone(d.month + 1, m, leap); }
  }

  lemma DayRoundTrip(day: int)
    ensures DayOfDate(DateOfDay(day)) == day
  {
  }

  /** 0 is Sunday; 1970-01-01 was a Thursday. */
  function WeekDay(day: int): int {
    (day + 4) % 7
  }

  function DayOfMinute(k: int): int { k / MINUTES_PER_DAY }
  function HourOfMinute(k: int): int { k / 60 % 24 }
  function MinuteOfHour(k: int): int { k % 60 }

  /** The minute at a given time of a day has that day and that time. */
  lemma MinuteFields(day: int, h: int, mi: int)
    requires 0 <= h < 24 && 0 <= mi < 60
    ensures var k := day * MINUTES_PER_DAY + h * 60 + mi;
            DayOfMinute(k) == day && HourOfMinute(k) == h && MinuteOfHour(k) == mi
  {
    var k := day * MINUTES_PER_DAY + h * 60 + mi;
    assert k / 60 == day * 24 + h;
  }
}
