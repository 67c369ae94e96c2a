/** When an expression fires, from its syntax tree and the calendar alone: the instants that the scheduler's
    parser, match rule and minute scan arrive at are exactly those whose minute, hour, month and day the
    expression names. The calendar is given by what everybody knows of it: its first day, the lengths of the
    months, and that days and weekdays follow one another. */
module CronInstants {
  import opened Common
  import opened Calendar
  import opened Cron
  import opened CronSyntax

  // ---------------------------------------------------------------- the calendar

  function MonthLength(year: int, month: int): int
    requires 1 <= month <= 12
  {
    if month == 2 then (if (year % 4 == 0 && year % 100 != 0) || year % 400 == 0 then 29 else 28)
    else if month == 4 || month == 6 || month == 9 || month == 11 then 30
    else 31
  }

  predicate IsDate(d: Date) {
    1 <= d.month <= 12 && 1 <= d.day <= MonthLength(d.year, d.month)
  }

  function Tomorrow(d: Date): Date
    requires IsDate(d)
  {
    if d.day < MonthLength(d.year, d.month) then d.(day := d.day + 1)
    else if d.month < 12 then Date(d.year, d.month + 1, 1)
    else Date(d.year + 1, 1, 1)
  }

  /** `dates` gives the date of every day, counted from 1970-01-01. */
  ghost predicate IsCalendar(dates: int -> Date) {
    && dates(0) == Date(1970, 1, 1) && (forall n :: IsDate(dates(n)))
    && (forall n, m :: m == n + 1 ==> dates(m) == Tomorrow(dates(n)))
  }

  /** `weekdays` gives the weekday of every day, Sunday being 0; 1970-01-01 was a Thursday. */
  ghost predicate IsWeek(weekdays: int -> int) {
    && weekdays(0) == 4 && (forall n :: 0 <= weekdays(n) <= 6)
    && (forall n, m :: m == n + 1 ==> weekdays(m) == (weekdays(n) + 1) % 7)
  }

  lemma LengthIs(year: int, month: int)
    requires 1 <= month <= 12
    ensures MonthLength(year, month) == DaysInMonth(month, IsLeap(year))
  {
  }

  lemma DateIs(d: Date)
    ensures IsDate(d) <==> ValidDate(d)
  {
    hide MonthLength;
    hide DaysInMonth;
    if 1 <= d.month <= 12 { LengthIs(d.year, d.month); }
  }

  /** Day numbers follow the dates. */
  lemma TomorrowIs(d: Date)
    requires IsDate(d)
    ensures ValidDate(d) && ValidDate(Tomorrow(d)) && DayOfDate(Tomorrow(d)) == DayOfDate(d) + 1
  {
    hide DayFromYear;
    DateIs(d);
    DateIs(Tomorrow(d));
    LengthIs(d.year, d.month);
    YearLength(d.year);
  }

  lemma {:induction false} DayNumber(dates: int -> Date, n: int)
    requires IsCalendar(dates)
    ensures ValidDate(dates(n)) && DayOfDate(dates(n)) == n
    decreases if n < 0 then -n else n
  {
    hide DayOfDate;
    hide Tomorrow;
    hide MonthLength;
    hide ValidDate;
    DateIs(dates(n));
    if n == 0 {
      FirstDay();
    } else if n > 0 {
      DayNumber(dates, n - 1);
      TomorrowIs(dates(n - 1));
    } else {
      DayNumber(dates, n + 1);
      TomorrowIs(dates(n));
    }
  }

  lemma FirstDay()
    ensures ValidDate(Date(1970, 1, 1)) && DayOfDate(Date(1970, 1, 1)) == 0
  {
  }

  /** There is one calendar only, the one the match rule reads. */
  lemma {:induction false} CalendarIs(dates: int -> Date, n: int)
    requires IsCalendar(dates)
    ensures dates(n) == DateOfDay(n)
  {
    hide DayOfDate;
    hide DateOfDay;
    hide IsCalendar;
    hide ValidDate;
    DayNumber(dates, n);
    DateRoundTrip(dates(n));
  }

  lemma {:induction false} WeekIs(weekdays: int -> int, n: int)
    requires IsWeek(weekdays)
    ensures weekdays(n) == WeekDay(n)
    decreases if n < 0 then -n else n
  {
    if n > 0 {
      WeekIs(weekdays, n - 1);
      WeekStep(n - 1);
    } else if n < 0 {
      WeekIs(weekdays, n + 1);
      WeekBack(n, weekdays(n));
    }
  }

  lemma WeekStep(n: int)
    ensures 0 <= WeekDay(n) <= 6 && WeekDay(n + 1) == (WeekDay(n) + 1) % 7
  {
  }

  lemma WeekBack(n: int, w: int)
    requires 0 <= w <= 6 && (w + 1) % 7 == WeekDay(n + 1)
    ensures w == WeekDay(n)
  {
  }

  lemma DateFollows(n: int)
    ensures IsDate(DateOfDay(n)) && DateOfDay(n + 1) == Tomorrow(DateOfDay(n))
  {
    hide DayOfDate;
    hide DateOfDay;
    hide ValidDate;
    hide MonthLength;
    hide Tomorrow;
    DateIs(DateOfDay(n));
    TomorrowIs(DateOfDay(n));
    DayRoundTrip(n);
    DateRoundTrip(Tomorrow(DateOfDay(n)));
  }

  lemma FirstDate()
    ensures DateOfDay(0) == Date(1970, 1, 1)
  {
    hide DayOfDate;
    hide DateOfDay;
    hide ValidDate;
    FirstDay();
    DateRoundTrip(Date(1970, 1, 1));
  }

  /** And there is one. */
  lemma CalendarExists()
    ensures IsCalendar(n => DateOfDay(n)) && IsWeek(n => WeekDay(n))
  {
    hide DateOfDay;
    hide IsDate;
    hide WeekDay;
    hide Tomorrow;
    FirstDate();
    assert WeekDay(0) == 4 by { WeekStart(); }
    forall n: int
      ensures IsDate(DateOfDay(n)) && DateOfDay(n + 1) == Tomorrow(DateOfDay(n))
      ensures 0 <= WeekDay(n) <= 6 && WeekDay(n + 1) == (WeekDay(n) + 1) % 7
    {
      DateFollows(n);
      WeekStep(n);
    }
  }

  lemma WeekStart()
    ensures WeekDay(0) == 4
  {
  }

  // ---------------------------------------------------------------- what an expression names

  /** The part names the value: it lies in its range, a whole number of steps from the start. */
  predicate Covers(p: Part, min: int, max: int, v: int) {
    var lo := match p.base case Star => min case One(w) => w case Span(lo, _) => lo;
    var hi := match p.base case Star => max case One(w) => w case Span(_, hi) => hi;
    lo <= v <= hi && (p.step.None? || (p.step.value > 0 && (v - lo) % p.step.value == 0))
  }

  ghost predicate Names(ps: Parts, min: int, max: int, v: int) {
    exists i :: 0 <= i < |ps| && Covers(ps[i], min, max, v)
  }

  /** Every part has a positive step, and a range that runs forwards inside the bounds. */
  ghost predicate Sound(ps: Parts, min: int, max: int) {
    forall i :: 0 <= i < |ps| ==>
      (ps[i].step.Some? ==> ps[i].step.value > 0) &&
      match ps[i].base
      case Star => true
      case One(v) => min <= v <= max
      case Span(lo, hi) => min <= lo <= hi <= max
  }

  ghost predicate Readable(e: Expression) {
    && Sound(e.minute, 0, 59) && Sound(e.hour, 0, 23) && Sound(e.dayOfMonth, 1, 31)
    && Sound(e.month, 1, 12) && Sound(e.dayOfWeek, 0, 6)
  }

  /** The day rule: a lone `*` in one of the two day fields leaves the decision to the other one; two stars
      admit every day, and two other fields admit the days of either. */
  ghost predicate NamesDay(e: Expression, d: Date, weekday: int) {
    var anyDay, anyWeekday := e.dayOfMonth == [Part(Star, None)], e.dayOfWeek == [Part(Star, None)];
    && (anyDay && !anyWeekday ==> Names(e.dayOfWeek, 0, 6, weekday))
    && (!anyDay && anyWeekday ==> Names(e.dayOfMonth, 1, 31, d.day))
    && (!anyDay && !anyWeekday ==> Names(e.dayOfMonth, 1, 31, d.day) || Names(e.dayOfWeek, 0, 6, weekday))
  }

  /** The expression names the instant: minute `mi` of hour `h` of the date. */
  ghost predicate NamesInstant(e: Expression, d: Date, weekday: int, h: int, mi: int) {
    Names(e.minute, 0, 59, mi) && Names(e.hour, 0, 23, h) && Names(e.month, 1, 12, d.month) && NamesDay(e, d, weekday)
  }

  /** Minute number `k` is such an instant. */
  ghost predicate Due(e: Expression, dates: int -> Date, weekdays: int -> int, k: int) {
    var day := k / 1440;
    NamesInstant(e, dates(day), weekdays(day), (k - day * 1440) / 60, (k - day * 1440) % 60)
  }

  lemma {:induction false} OnStepIff(v: int, start: int, step: int)
    requires step > 0
    ensures OnStep(v, start, step) <==> v >= start && (v - start) % step == 0
    decreases v - start
  {
    if v > start {
      OnStepIff(v - step, start, step);
      StepDown(v - start, step);
    }
  }

  lemma StepDown(x: int, step: int)
    requires step > 0 && x > 0
    ensures x >= step ==> (x - step) % step == x % step
    ensures x < step ==> x % step != 0
  {
    if x >= step {
      var q, r := x / step, x % step;
      assert x - step == step * (q - 1) + r by { assert x == step * q + r; }
      ModOf(x - step, step, q - 1, r);
    } else {
      ModOf(x, step, 0, x);
    }
  }

  lemma AtLeastOnce(d: int, m: int)
    requires d > 0
    ensures m >= 1 ==> d * m >= d
    ensures m <= -1 ==> d * m <= -d
  {
    if m >= 1 { assert d * m == d + d * (m - 1) && d * (m - 1) >= 0; }
    if m <= -1 { assert d * m == -d + d * (m + 1) && d * (-m - 1) >= 0; }
  }

  lemma ModOf(x: int, d: int, q: int, r: int)
    requires d > 0 && x == d * q + r && 0 <= r < d
    ensures x % d == r
  {
    DivisionIs(x, d);
    var m := q - x / d;
    assert d * m == d * q - d * (x / d);
    AtLeastOnce(d, m);
  }

  lemma DivisionIs(x: int, d: int)
    requires d > 0
    ensures x == d * (x / d) + x % d && 0 <= x % d < d
  {
  }

  lemma PartNames(p: Part, min: int, max: int, v: int)
    requires PartMeaning(p, min, max).Some?
    ensures v in Denoted(PartMeaning(p, min, max).value) <==> Covers(p, min, max, v)
  {
    var r := PartMeaning(p, min, max).value;
    OnStepIff(v, r.start, r.step);
    hide OnStep;
    OneModulo(v - r.start);
  }

  lemma OneModulo(x: int)
    ensures x % 1 == 0
  {
  }

  lemma FieldNames(ps: Parts, min: int, max: int)
    requires min <= max
    ensures Meaningful(ps, min, max) <==> Sound(ps, min, max)
    ensures Meaningful(ps, min, max) ==> forall v :: Named(ps, min, max, v) <==> Names(ps, min, max, v)
    ensures Meaningful(ps, min, max) ==> forall v :: Names(ps, min, max, v) ==> min <= v <= max
  {
    if Meaningful(ps, min, max) {
      forall v
        ensures Named(ps, min, max, v) <==> Names(ps, min, max, v)
        ensures Names(ps, min, max, v) ==> min <= v <= max
      {
        forall i | 0 <= i < |ps|
          ensures v in Denoted(PartMeaning(ps[i], min, max).value) <==> Covers(ps[i], min, max, v)
        {
          PartNames(ps[i], min, max, v);
        }
        hide Denoted;
      }
    }
  }

  lemma FieldValues(ps: Parts, min: int, max: int)
    requires min <= max
    ensures FieldMeaning(ps, min, max).Some? <==> Sound(ps, min, max)
    ensures Sound(ps, min, max) ==>
      var f := FieldMeaning(ps, min, max).value; f.wildcard == (ps == [Part(Star, None)]) && forall v :: v in f.values <==> Names(ps, min, max, v)
  {
    FieldNames(ps, min, max);
    hide Named;
    hide Names;
    hide Meaningful;
    hide Sound;
  }

  lemma ReadableIff(e: Expression)
    ensures Meaning(e).Some? <==> Readable(e)
  {
    hide FieldMeaning;
    hide Sound;
    FieldValues(e.minute, 0, 59);
    FieldValues(e.hour, 0, 23);
    FieldValues(e.dayOfMonth, 1, 31);
    FieldValues(e.month, 1, 12);
    FieldValues(e.dayOfWeek, 0, 6);
  }

  lemma TimeOf(k: int)
    ensures var day := k / 1440;
      DayOfMinute(k) == day && HourOfMinute(k) == (k - day * 1440) / 60 && MinuteOfHour(k) == (k - day * 1440) % 60
  {
    var day := k / 1440;
    var r := k - day * 1440;
    assert 0 <= r < 1440;
    MinuteFields(day, r / 60, r % 60);
    assert k == day * MINUTES_PER_DAY + r / 60 * 60 + r % 60;
  }

  /** The match rule fires at a minute if and only if the expression names it. */
  lemma {:induction false} FiresIff(e: Expression, dates: int -> Date, weekdays: int -> int, k: int)
    requires Readable(e) && IsCalendar(dates) && IsWeek(weekdays)
    ensures Meaning(e).Some? && (Fires(Meaning(e).value)(k) <==> Due(e, dates, weekdays, k))
  {
    hide FieldMeaning;
    hide Names;
    hide Sound;
    hide DateOfDay;
    hide WeekDay;
    ReadableIff(e);
    FieldValues(e.minute, 0, 59);
    FieldValues(e.hour, 0, 23);
    FieldValues(e.dayOfMonth, 1, 31);
    FieldValues(e.month, 1, 12);
    FieldValues(e.dayOfWeek, 0, 6);
    CalendarIs(dates, k / 1440);
    WeekIs(weekdays, k / 1440);
    hide IsCalendar;
    hide IsWeek;
    TimeOf(k);
    hide DayOfMinute;
    hide HourOfMinute;
    hide MinuteOfHour;
  }

  /** The instant that the scheduler computes from the text of an expression is the earliest one after `from`
      that the expression names; there is none exactly if the expression means nothing, or names no minute of
      the two years of 365 days that follow. */
  lemma {:induction false} NextInstant(e: Expression, from: int, number: Number, dates: int -> Date, weekdays: int -> int)
    requires Complete(e) && ReadsDecimals(number) && IsCalendar(dates) && IsWeek(weekdays)
    ensures var r := CronNext(ExpressionText(e), from, number);
      && (r.Some? ==> Readable(e) && r.value > from && r.value % 60000 == 0 && Due(e, dates, weekdays, r.value / 60000))
      && (r.Some? ==> forall k :: from < k * 60000 < r.value ==> !Due(e, dates, weekdays, k))
      && (r.None? && Readable(e) ==> forall k :: from < k * 60000 <= from + 730 * 1440 * 60000 ==> !Due(e, dates, weekdays, k))
  {
    hide Meaning;
    hide Fires;
    hide NextFire;
    hide Due;
    hide Readable;
    hide CronOf;
    ExpressionMeans(e, number);
    ReadableIff(e);
    if Readable(e) {
      var fires := Fires(Meaning(e).value);
      NextFireIsEarliest(fires, from);
      forall k: int
        ensures fires(k) <==> Due(e, dates, weekdays, k)
      {
        FiresIff(e, dates, weekdays, k);
      }
    }
  }

  /** The instant of a date, an hour and a minute is due if and only if the expression names them. */
  lemma {:induction false} DueIff(e: Expression, dates: int -> Date, weekdays: int -> int, day: int, h: int, mi: int)
    requires 0 <= h < 24 && 0 <= mi < 60
    ensures Due(e, dates, weekdays, day * 1440 + h * 60 + mi) <==> NamesInstant(e, dates(day), weekdays(day), h, mi)
  {
    hide NamesInstant;
    MinuteFields(day, h, mi);
  }
}
