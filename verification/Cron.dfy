/** Cron expressions: the five-field parser, the match rule and the minute scan of
    apps/scheduler/src/main.ts.

    `number` stands for JavaScript's string-to-number conversion restricted to integers:
    `number(s) == Some(v)` when `Number(s)` is the integer `v`, and `None` otherwise. Everything
    below holds for every such function. */
module Cron {
  import opened Common
  import opened Text
  import opened Calendar

  type Number = string -> Option<int>

  datatype Field = Field(values: set<int>, wildcard: bool)

  datatype Parsed = Parsed(minute: Field, hour: Field, dayOfMonth: Field, month: Field, dayOfWeek: Field)

  // ---------------------------------------------------------------- what a field denotes

  datatype Range = Range(start: int, end: int, step: int)

  /** The range one comma-separated part describes, or None where the parser rejects it. */
  function PartRange(part: string, min: int, max: int, number: Number): (r: Option<Range>)
    requires min <= max
    ensures r.Some? ==> min <= r.value.start <= r.value.end <= max && r.value.step > 0
  {
    var trimmed := Trim(part);
    if trimmed == [] then None
    else
      var pieces := Split(trimmed, '/');
      var step := if |pieces| == 1 then Some(1) else number(pieces[1]);
      if step.None? || step.value <= 0 then None
      else
        var bounds := BaseBounds(pieces[0], min, max, number);
        if bounds.None? || bounds.value.0 < min || bounds.value.1 > max then None
        else Some(Range(bounds.value.0, bounds.value.1, step.value))
  }

  function BaseBounds(base: string, min: int, max: int, number: Number): (r: Option<(int, int)>)
    requires min <= max
    ensures r.Some? ==> r.value.0 <= r.value.1
  {
    if base == "*" then Some((min, max))
    else if '-' in base then
      var ends := Split(base, '-');
      var lo, hi := number(ends[0]), number(ends[1]);
      if lo.None? || hi.None? || lo.value > hi.value then None else Some((lo.value, hi.value))
    else
      var v := number(base);
      if v.None? then None else Some((v.value, v.value))
  }

  /** `v` is reached from `start` by adding `step` some number of times. */
  ghost predicate OnStep(v: int, start: int, step: int)
    decreases v - start
  {
    step > 0 && (v == start || (v > start && OnStep(v - step, start, step)))
  }

  /** The values a range denotes: every `step`-th one from its start to its end. */
  ghost function Denoted(r: Range): set<int> {
    set v | r.start <= v <= r.end && OnStep(v, r.start, r.step)
  }

  /** The values of the first `n` parts together; None as soon as one part is rejected. */
  ghost function PartsValues(parts: seq<string>, n: nat, min: int, max: int, number: Number): (r: Option<set<int>>)
    requires min <= max && n <= |parts|
    ensures r.Some? ==> forall v :: v in r.value ==> min <= v <= max
  {
    if n == 0 then Some({})
    else
      var before, last := PartsValues(parts, n - 1, min, max, number), PartRange(parts[n - 1], min, max, number);
      if before.None? || last.None? then None else Some(before.value + Denoted(last.value))
  }

  ghost function FieldOf(raw: string, min: int, max: int, number: Number): Option<Field>
    requires min <= max
  {
    var parts := Split(raw, ',');
    var values := PartsValues(parts, |parts|, min, max, number);
    if values.None? then None else Some(Field(values.value, Trim(raw) == "*"))
  }

  /** The meaning of a whole expression. */
  ghost function CronOf(expression: string, number: Number): Option<Parsed> {
    var f := SplitSpaces(Trim(expression));
    if |f| != 5 then None
    else
      var mi, h, dom := FieldOf(f[0], 0, 59, number), FieldOf(f[1], 0, 23, number), FieldOf(f[2], 1, 31, number);
      var mo, dow := FieldOf(f[3], 1, 12, number), FieldOf(f[4], 0, 6, number);
      if mi.None? || h.None? || dom.None? || mo.None? || dow.None? then None
      else Some(Parsed(mi.value, h.value, dom.value, mo.value, dow.value))
  }

  // ---------------------------------------------------------------- the parser

  /** Nothing strictly between two consecutive reached values is reached. */
  lemma {:induction false} NoneBetween(x: int, v: int, start: int, step: int)
    requires OnStep(x, start, step) && x < v < x + step
    ensures !OnStep(v, start, step)
    decreases x - start
  {
    if x != start {
      NoneBetween(x - step, v - step, start, step);
    }
  }

  method ParseFieldPart(part: string, min: int, max: int, number: Number) returns (r: Option<seq<int>>)
    requires min <= max
    ensures r.None? <==> PartRange(part, min, max, number).None?
    ensures r.Some? ==> forall v :: v in r.value <==> v in Denoted(PartRange(part, min, max, number).value)
  {
    hide PartRange;
    var range := PartRange(part, min, max, number);
    if range.None? {
      return None;
    }
    var Range(start, end, step) := range.value;
    var values := [];
    var value := start;
    while value <= end
      invariant start <= value && OnStep(value, start, step)
      invariant forall v :: v in values <==> start <= v < value && v <= end && OnStep(v, start, step)
      decreases end - value
    {
      values := values + [value];
      forall v | value < v < value + step && OnStep(v, start, step)
        ensures false
      {
        NoneBetween(value, v, start, step);
      }
      value := value + step;
    }
    return Some(values);
  }

  /** `sunday7` tells whether the field is normalised by mapping 7 to 0, as the day-of-week field is.
      The result does not depend on it: 7 is out of that field's range and is rejected before. */
  method ParseCronField(raw: string, min: int, max: int, sunday7: bool, number: Number) returns (r: Option<Field>)
    requires min <= max && (sunday7 ==> max <= 6)
    ensures r == FieldOf(raw, min, max, number)
  {
    hide PartRange;
    hide Denoted;
    hide Split;
    hide Trim;
    var parts := Split(raw, ',');
    var values: set<int> := {};
    for i := 0 to |parts|
      invariant PartsValues(parts, i, min, max, number) == Some(values)
    {
      var parsed := ParseFieldPart(parts[i], min, max, number);
      if parsed.None? {
        RejectedPart(parts, i, |parts|, min, max, number);
        return None;
      }
      ghost var before, denoted := values, Denoted(PartRange(parts[i], min, max, number).value);
      for j := 0 to |parsed.value|
        invariant values == before + set v | v in parsed.value[..j]
      {
        var value := parsed.value[j];
        assert value in parsed.value;
        assert value in PartsValues(parts, i + 1, min, max, number).value;
        var normalized := if sunday7 && value == 7 then 0 else value;
        if normalized < min || normalized > max {
          assert false;
        }
        assert parsed.value[..j + 1] == parsed.value[..j] + [value];
        values := values + {normalized};
      }
      assert parsed.value[..|parsed.value|] == parsed.value;
      assert forall v :: v in parsed.value <==> v in denoted;
      assert values == before + denoted;
    }
    return Some(Field(values, Trim(raw) == "*"));
  }

  lemma {:induction false} RejectedPart(parts: seq<string>, i: nat, n: nat, min: int, max: int, number: Number)
    requires min <= max && i < n <= |parts|
    requires PartRange(parts[i], min, max, number).None?
    ensures PartsValues(parts, n, min, max, number).None?
  {
    hide PartRange;
    hide Denoted;
    if i < n - 1 {
      RejectedPart(parts, i, n - 1, min, max, number);
    }
  }

  method ParseCronExpression(expression: string, number: Number) returns (r: Option<Parsed>)
    ensures r == CronOf(expression, number)
  {
    var fields := SplitSpaces(Trim(expression));
    if |fields| != 5 {
      return None;
    }
    var minute := ParseCronField(fields[0], 0, 59, false, number);
    var hour := ParseCronField(fields[1], 0, 23, false, number);
    var dayOfMonth := ParseCronField(fields[2], 1, 31, false, number);
    var month := ParseCronField(fields[3], 1, 12, false, number);
    var dayOfWeek := ParseCronField(fields[4], 0, 6, true, number);
    if minute.None? || hour.None? || dayOfMonth.None? || month.None? || dayOfWeek.None? {
      return None;
    }
    return Some(Parsed(minute.value, hour.value, dayOfMonth.value, month.value, dayOfWeek.value));
  }

  // ---------------------------------------------------------------- what a parsed expression always satisfies

  ghost predicate ValidField(f: Field, min: int, max: int) {
    && (exists v :: v in f.values)
    && (forall v :: v in f.values ==> min <= v <= max)
    && (f.wildcard ==> forall v :: min <= v <= max ==> v in f.values)
  }

  ghost predicate ValidCron(p: Parsed) {
    && ValidField(p.minute, 0, 59) && ValidField(p.hour, 0, 23) && ValidField(p.dayOfMonth, 1, 31)
    && ValidField(p.month, 1, 12) && ValidField(p.dayOfWeek, 0, 6)
  }

  lemma {:induction false} PartsNonEmpty(parts: seq<string>, n: nat, min: int, max: int, number: Number)
    requires min <= max && 0 < n <= |parts|
    ensures var values := PartsValues(parts, n, min, max, number); values.Some? ==> exists v :: v in values.value
  {
    if PartsValues(parts, n, min, max, number).None? {
      return;
    }
    var range := PartRange(parts[n - 1], min, max, number).value;
    assert range.start in Denoted(range);
    assert range.start in PartsValues(parts, n, min, max, number).value;
  }

  lemma {:induction false} NoSeparator(s: string, sep: char)
    requires sep !in s
    ensures Split(s, sep) == [s]
  {
    SplitFirst(s, sep, "");
  }

  lemma TrimKeepsComma(raw: string)
    requires ',' in raw
    ensures ',' in Trim(raw)
  {
    TrimStartKeeps(raw, ',');
    TrimEndKeeps(TrimStart(raw), ',');
  }

  lemma {:induction false} TrimStartKeeps(s: string, c: char)
    requires !IsSpace(c) && c in s
    ensures c in TrimStart(s)
  {
    if IsSpace(s[0]) { TrimStartKeeps(s[1..], c); }
  }

  lemma {:induction false} TrimEndKeeps(s: string, c: char)
    requires !IsSpace(c) && c in s
    ensures c in TrimEnd(s)
  {
    if IsSpace(s[|s| - 1]) { TrimEndKeeps(s[..|s| - 1], c); }
  }

  lemma {:induction false} StarRange(raw: string, min: int, max: int, number: Number)
    requires min <= max && Trim(raw) == "*"
    ensures Split(raw, ',') == [raw]
    ensures PartRange(raw, min, max, number) == Some(Range(min, max, 1))
  {
    hide TrimStart;
    hide TrimEnd;
    if ',' in raw { TrimKeepsComma(raw); }
    NoSeparator(raw, ',');
    NoSeparator("*", '/');
  }

  lemma {:induction false} StepOne(v: int, start: int)
    requires start <= v
    ensures OnStep(v, start, 1)
    decreases v - start
  {
    if start < v { StepOne(v - 1, start); }
  }

  lemma FieldIsValid(raw: string, min: int, max: int, number: Number)
    requires min <= max
    ensures var field := FieldOf(raw, min, max, number); field.Some? ==> ValidField(field.value, min, max)
  {
    hide PartRange;
    hide Trim;
    hide Split;
    var parts := Split(raw, ',');
    PartsNonEmpty(parts, |parts|, min, max, number);
    if Trim(raw) == "*" {
      StarRange(raw, min, max, number);
      forall v | min <= v <= max
        ensures v in Denoted(Range(min, max, 1))
      {
        StepOne(v, min);
      }
    }
  }

  /** Every accepted expression has five non-empty fields inside their ranges, and `*` is the whole range. */
  lemma AcceptedIsValid(expression: string, number: Number)
    ensures var p := CronOf(expression, number); p.Some? ==> ValidCron(p.value)
  {
    var f := SplitSpaces(Trim(expression));
    if |f| != 5 {
      return;
    }
    FieldIsValid(f[0], 0, 59, number);
    FieldIsValid(f[1], 0, 23, number);
    FieldIsValid(f[2], 1, 31, number);
    FieldIsValid(f[3], 1, 12, number);
    FieldIsValid(f[4], 0, 6, number);
  }

  // ---------------------------------------------------------------- matching a minute

  predicate DayMatches(dayOfMonth: Field, dayOfWeek: Field, day: int) {
    var domMatch := DateOfDay(day).day in dayOfMonth.values;
    var dowMatch := WeekDay(day) in dayOfWeek.values;
    if dayOfMonth.wildcard && dayOfWeek.wildcard then true
    else if dayOfMonth.wildcard then dowMatch
    else if dayOfWeek.wildcard then domMatch
    else domMatch || dowMatch
  }

  /** Whether minute number `k` is a firing minute. */
  predicate Matches(p: Parsed, k: int) {
    && MinuteOfHour(k) in p.minute.values
    && HourOfMinute(k) in p.hour.values
    && DateOfDay(DayOfMinute(k)).month in p.month.values
    && DayMatches(p.dayOfMonth, p.dayOfWeek, DayOfMinute(k))
  }

  /** The set of firing minutes, as a function. */
  function Fires(p: Parsed): int -> bool {
    k => Matches(p, k)
  }

  const MINUTE_MS := 60000
  /** Two years of 365 days, in minutes. */
  const SCAN_MINUTES := 1051200

  /** The first of the `n` minutes from `k` on that satisfies `fires`. */
  function FirstOf(fires: int -> bool, k: int, n: nat): (r: Option<int>)
    ensures r.Some? ==> k <= r.value < k + n && fires(r.value) && forall m :: k <= m < r.value ==> !fires(m)
    ensures r.None? ==> forall m :: k <= m < k + n ==> !fires(m)
    decreases n
  {
    if n == 0 then None else if fires(k) then Some(k) else FirstOf(fires, k + 1, n - 1)
  }

  /** The next firing instant, in milliseconds, strictly after `from`. */
  function NextFire(fires: int -> bool, from: int): (r: Option<int>) {
    var k := FirstOf(fires, from / MINUTE_MS + 1, SCAN_MINUTES);
    if k.None? then None else Some(k.value * MINUTE_MS)
  }

  /** A result of the scan is the earliest firing minute strictly after `from`; no result means the
      whole window is empty. */
  lemma NextFireIsEarliest(fires: int -> bool, from: int)
    ensures var r := NextFire(fires, from);
      && (r.Some? ==> r.value > from && r.value % MINUTE_MS == 0 && fires(r.value / MINUTE_MS))
      && (r.Some? ==> forall m :: from < m * MINUTE_MS < r.value ==> !fires(m))
      && (r.None? ==> forall m :: from < m * MINUTE_MS <= from + SCAN_MINUTES * MINUTE_MS ==> !fires(m))
  {
    hide FirstOf;
    var first := from / MINUTE_MS + 1;
    assert (first - 1) * MINUTE_MS <= from < first * MINUTE_MS;
    var k := FirstOf(fires, first, SCAN_MINUTES);
    if k.Some? {
      assert k.value * MINUTE_MS / MINUTE_MS == k.value;
    }
  }

  method ScanMinutes(fires: int -> bool, from: int) returns (r: Option<int>)
    ensures r == NextFire(fires, from)
  {
    var first := from / MINUTE_MS + 1;
    var candidate := first;
    for i := 0 to SCAN_MINUTES
      invariant candidate == first + i
      invariant FirstOf(fires, first, SCAN_MINUTES) == FirstOf(fires, candidate, SCAN_MINUTES - i)
    {
      if fires(candidate) {
        return Some(candidate * MINUTE_MS);
      }
      candidate := candidate + 1;
    }
    return None;
  }

  /** What the scheduler asks: parse, then scan. */
  method NextCronFireAt(expression: string, from: int, number: Number) returns (r: Option<int>)
    ensures r == CronNext(expression, from, number)
  {
    var parsed := ParseCronExpression(expression, number);
    if parsed.None? {
      return None;
    }
    r := ScanMinutes(Fires(parsed.value), from);
  }

  ghost function CronNext(expression: string, from: int, number: Number): Option<int> {
    var p := CronOf(expression, number);
    if p.None? then None else NextFire(Fires(p.value), from)
  }

  // ---------------------------------------------------------------- when the scan can come back empty

  /** Checkable on the parsed fields: some month of the expression has a matching day in every year,
      also in the years in which February has 28 days. */
  ghost predicate AlwaysReachable(p: Parsed) {
    || p.dayOfMonth.wildcard
    || !p.dayOfWeek.wildcard
    || exists m, d :: m in p.month.values && 1 <= m <= 12 && d in p.dayOfMonth.values && d <= DaysInMonth(m, false)
  }

  lemma Pick(f: Field, min: int, max: int) returns (v: int)
    requires ValidField(f, min, max)
    ensures v in f.values && min <= v <= max
  {
    v :| v in f.values;
  }

  /** The first day of a month, and the same month a year later. */
  lemma NextYearSameDate(y: int, m: int, d: int)
    requires 1 <= m <= 12 && 1 <= d <= DaysInMonth(m, false)
    ensures ValidDate(Date(y, m, d)) && ValidDate(Date(y + 1, m, d))
    ensures DayOfDate(Date(y, m, d)) <= DayOfDate(Date(y + 1, m, d)) <= DayOfDate(Date(y, m, d)) + 367
    ensures DayFromYear(y) <= DayOfDate(Date(y, m, d)) < DayFromYear(y + 1)
    ensures DateOfDay(DayOfDate(Date(y, m, d))) == Date(y, m, d)
  {
    hide DateOfDay;
    hide DayFromYear;
    YearLength(y);
    DateRoundTrip(Date(y, m, d));
  }

  /** The day at most six days later that falls on weekday `w`. */
  function ShiftTo(day: int, w: int): (r: int)
    requires 0 <= w <= 6
    ensures day <= r <= day + 6 && WeekDay(r) == w
  {
    day + (w - WeekDay(day)) % 7
  }

  ghost predicate GoodDay(p: Parsed, day: int) {
    DateOfDay(day).month in p.month.values && DayMatches(p.dayOfMonth, p.dayOfWeek, day)
  }

  /** A matching day in year `y` and one in the year after it, at most 373 days apart. */
  lemma MatchingDays(p: Parsed, y: int) returns (a: int, b: int)
    requires ValidCron(p) && AlwaysReachable(p)
    ensures GoodDay(p, a) && GoodDay(p, b)
    ensures DayFromYear(y) <= a < DayFromYear(y + 1) <= b <= a + 373
  {
    hide DateOfDay;
    hide DayFromYear;
    if p.dayOfWeek.wildcard && !p.dayOfMonth.wildcard {
      var m, d :| m in p.month.values && 1 <= m <= 12 && d in p.dayOfMonth.values && d <= DaysInMonth(m, false);
      NextYearSameDate(y, m, d);
      NextYearSameDate(y + 1, m, d);
      a, b := DayOfDate(Date(y, m, d)), DayOfDate(Date(y + 1, m, d));
    } else {
      var m := Pick(p.month, 1, 12);
      var w := Pick(p.dayOfWeek, 0, 6);
      a := WeekDayOfMonth(y, m, w);
      b := WeekDayOfMonth(y + 1, m, w);
      YearLength(y);
      DaysBeforeMonotone(1, m, IsLeap(y));
    }
  }

  /** Each weekday occurs in each month, among its first seven days. */
  lemma WeekDayOfMonth(y: int, m: int, w: int) returns (day: int)
    requires 1 <= m <= 12 && 0 <= w <= 6
    ensures DateOfDay(day).month == m && WeekDay(day) == w
    ensures var first := DayFromYear(y) + DaysBefore(m, IsLeap(y)); first <= day <= first + 6
  {
    hide DayFromYear;
    hide DateOfDay;
    hide ShiftTo;
    var first := DayFromYear(y) + DaysBefore(m, IsLeap(y));
    day := ShiftTo(first, w);
    DateRoundTrip(Date(y, m, day - first + 1));
  }

  /** The minute of a good day at an hour and minute of the expression. */
  lemma MinuteOfGoodDay(p: Parsed, day: int, h: int, mi: int)
    requires GoodDay(p, day) && h in p.hour.values && mi in p.minute.values && 0 <= h < 24 && 0 <= mi < 60
    ensures Fires(p)(day * MINUTES_PER_DAY + h * 60 + mi)
  {
    hide DateOfDay;
    hide DayMatches;
    hide DayOfMinute;
    hide HourOfMinute;
    hide MinuteOfHour;
    MinuteFields(day, h, mi);
  }

  /** The window always holds a match: the one of the year in which it opens, or the one a year later. */
  lemma WindowHasMatch(p: Parsed, first: int) returns (k: int)
    requires ValidCron(p) && AlwaysReachable(p)
    ensures first <= k < first + SCAN_MINUTES && Fires(p)(k)
  {
    hide DayFromYear;
    hide YearOfDay;
    hide GoodDay;
    hide Fires;
    var h := Pick(p.hour, 0, 23);
    var mi := Pick(p.minute, 0, 59);
    var today := first / MINUTES_PER_DAY;
    var y := YearOfDay(today);
    YearLength(y);
    var a, b := MatchingDays(p, y);
    MinuteOfGoodDay(p, a, h, mi);
    MinuteOfGoodDay(p, b, h, mi);
    var early, late := a * MINUTES_PER_DAY + h * 60 + mi, b * MINUTES_PER_DAY + h * 60 + mi;
    k := if early >= first then early else late;
    assert today * MINUTES_PER_DAY <= first < (today + 1) * MINUTES_PER_DAY;
  }

  /** 2021 and 2022 are both common years, and the window that opens with them ends with them. */
  const COMMON_YEARS_FROM := DayFromYear(2021) * MINUTES_PER_DAY

  lemma CommonYears(k: int)
    requires COMMON_YEARS_FROM <= k < COMMON_YEARS_FROM + SCAN_MINUTES
    ensures !IsLeap(DateOfDay(DayOfMinute(k)).year)
  {
    var day := DayOfMinute(k);
    if day < DayFromYear(2022) { YearUnique(day, 2021); } else { YearUnique(day, 2022); }
  }

  lemma UnreachableHasNoMatch(p: Parsed, k: int)
    requires ValidCron(p) && !AlwaysReachable(p)
    requires COMMON_YEARS_FROM <= k < COMMON_YEARS_FROM + SCAN_MINUTES
    ensures !Fires(p)(k)
  {
    CommonYears(k);
    var d := DateOfDay(DayOfMinute(k));
    assert !(d.month in p.month.values && d.day in p.dayOfMonth.values);
  }

  /** The scan succeeds from every instant exactly for the reachable expressions. */
  lemma NeverNullIff(p: Parsed)
    requires ValidCron(p)
    ensures (forall from: int :: NextFire(Fires(p), from).Some?) <==> AlwaysReachable(p)
  {
    if AlwaysReachable(p) {
      forall from: int
        ensures NextFire(Fires(p), from).Some?
      {
        var k := WindowHasMatch(p, from / MINUTE_MS + 1);
      }
    } else {
      forall k | COMMON_YEARS_FROM <= k < COMMON_YEARS_FROM + SCAN_MINUTES
        ensures !Fires(p)(k)
      {
        UnreachableHasNoMatch(p, k);
      }
      var from := (COMMON_YEARS_FROM - 1) * MINUTE_MS;
      assert NextFire(Fires(p), from).None?;
    }
  }

  /** For every accepted expression that is reachable, the scheduler always gets a next firing instant. */
  lemma AcceptedNeverNull(expression: string, from: int, number: Number)
    ensures var p := CronOf(expression, number);
      p.Some? && AlwaysReachable(p.value) ==> CronNext(expression, from, number).Some?
  {
    hide CronOf;
    hide AlwaysReachable;
    hide NextFire;
    AcceptedIsValid(expression, number);
    var p := CronOf(expression, number);
    if p.Some? && AlwaysReachable(p.value) {
      NeverNullIff(p.value);
      assert NextFire(Fires(p.value), from).Some?;
    }
  }
}
