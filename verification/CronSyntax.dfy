/** Cron expressions as syntax trees, written out the way apps/scheduler/src/main.ts reads them. A reference
    meaning is given to the trees directly, and the parser is proved to find it in the text: also where it
    rejects. */
module CronSyntax {
  import opened Common
  import opened Text
  import opened Cron

  datatype Base = Star | One(v: nat) | Span(lo: nat, hi: nat)

  datatype Part = Part(base: Base, step: Option<nat>)

  type Parts = seq<Part>

  datatype Expression = Expression(minute: Parts, hour: Parts, dayOfMonth: Parts, month: Parts, dayOfWeek: Parts)

  // ---------------------------------------------------------------- text

  function BaseText(b: Base): string {
    match b
    case Star => "*"
    case One(v) => Decimal(v)
    case Span(lo, hi) => Decimal(lo) + ['-'] + Decimal(hi)
  }

  function PartText(p: Part): string {
    if p.step.None? then BaseText(p.base) else BaseText(p.base) + ['/'] + Decimal(p.step.value)
  }

  function Texts(ps: Parts): (r: seq<string>)
    ensures |r| == |ps| && forall i :: 0 <= i < |ps| ==> r[i] == PartText(ps[i])
  {
    seq(|ps|, i requires 0 <= i < |ps| => PartText(ps[i]))
  }

  function FieldText(ps: Parts): string
    requires ps != []
  {
    Join(Texts(ps), ',')
  }

  predicate Complete(e: Expression) {
    e.minute != [] && e.hour != [] && e.dayOfMonth != [] && e.month != [] && e.dayOfWeek != []
  }

  function FieldTexts(e: Expression): seq<string>
    requires Complete(e)
  {
    [FieldText(e.minute), FieldText(e.hour), FieldText(e.dayOfMonth), FieldText(e.month), FieldText(e.dayOfWeek)]
  }

  function ExpressionText(e: Expression): string
    requires Complete(e)
  {
    Join(FieldTexts(e), ' ')
  }

  // ---------------------------------------------------------------- meaning

  /** A step of zero, a range that runs backwards and one that leaves the bounds mean nothing. */
  function PartMeaning(p: Part, min: int, max: int): Option<Range> {
    var step := if p.step.None? then 1 else p.step.value;
    var lo := match p.base case Star => min case One(v) => v case Span(lo, _) => lo;
    var hi := match p.base case Star => max case One(v) => v case Span(_, hi) => hi;
    if step == 0 || !(min <= lo <= hi <= max) then None else Some(Range(lo, hi, step))
  }

  ghost predicate Meaningful(ps: Parts, min: int, max: int) {
    forall i :: 0 <= i < |ps| ==> PartMeaning(ps[i], min, max).Some?
  }

  ghost predicate Named(ps: Parts, min: int, max: int, v: int) {
    exists i :: 0 <= i < |ps| && PartMeaning(ps[i], min, max).Some? && v in Denoted(PartMeaning(ps[i], min, max).value)
  }

  ghost function FieldMeaning(ps: Parts, min: int, max: int): Option<Field> {
    if Meaningful(ps, min, max)
    then Some(Field((set v | min <= v <= max && Named(ps, min, max, v)), ps == [Part(Star, None)]))
    else None
  }

  ghost function Meaning(e: Expression): Option<Parsed> {
    var mi, h, dom := FieldMeaning(e.minute, 0, 59), FieldMeaning(e.hour, 0, 23), FieldMeaning(e.dayOfMonth, 1, 31);
    var mo, dow := FieldMeaning(e.month, 1, 12), FieldMeaning(e.dayOfWeek, 0, 6);
    if mi.None? || h.None? || dom.None? || mo.None? || dow.None? then None
    else Some(Parsed(mi.value, h.value, dom.value, mo.value, dow.value))
  }

  /** All that is needed of JavaScript's number conversion. */
  ghost predicate ReadsDecimals(number: Number) {
    forall n: nat :: number(Decimal(n)) == Some(n)
  }

  // ---------------------------------------------------------------- the characters of the text

  predicate DigitsOnly(s: string) {
    forall i :: 0 <= i < |s| ==> '0' <= s[i] <= '9'
  }

  lemma {:induction false} DecimalDigits(n: nat)
    ensures DigitsOnly(Decimal(n))
  {
    if n >= 10 { DecimalDigits(n / 10); }
  }

  /** The characters of a part: none of them is white space or a comma. */
  predicate PartChar(c: char) {
    '0' <= c <= '9' || c == '*' || c == '-' || c == '/'
  }

  predicate PartChars(s: string) {
    forall i :: 0 <= i < |s| ==> PartChar(s[i])
  }

  predicate NoSpaces(s: string) {
    forall i :: 0 <= i < |s| ==> !IsSpace(s[i])
  }

  lemma BaseFacts(b: Base)
    ensures PartChars(BaseText(b)) && '/' !in BaseText(b) && BaseText(b) != ""
    ensures BaseText(b) == "*" <==> b.Star?
    ensures b.One? ==> '-' !in BaseText(b)
  {
    match b
    case Star =>
    case One(v) => DecimalDigits(v);
    case Span(lo, hi) =>
      DecimalDigits(lo);
      DecimalDigits(hi);
      assert BaseText(b)[|Decimal(lo)|] == '-';
  }

  lemma PartFacts(p: Part)
    ensures PartChars(PartText(p)) && PartText(p) != "" && ',' !in PartText(p) && NoSpaces(PartText(p))
    ensures PartText(p) == "*" <==> p == Part(Star, None)
  {
    BaseFacts(p.base);
    if p.step.Some? { DecimalDigits(p.step.value); }
    assert forall c :: PartChar(c) ==> c != ',' && !IsSpace(c);
  }

  lemma TrimNone(s: string)
    requires s != "" && !IsSpace(s[0]) && !IsSpace(s[|s| - 1])
    ensures Trim(s) == s
  {
  }

  // ---------------------------------------------------------------- one part

  lemma BaseMeans(b: Base, min: int, max: int, number: Number)
    requires min <= max && ReadsDecimals(number)
    ensures BaseBounds(BaseText(b), min, max, number) == match b
      case Star => Some((min, max))
      case One(v) => Some((v, v))
      case Span(lo, hi) => if lo > hi then None else Some((lo, hi))
  {
    hide Decimal;
    BaseFacts(b);
    if b.Span? {
      DecimalDigits(b.lo);
      DecimalDigits(b.hi);
      SplitFirst(Decimal(b.lo), '-', Decimal(b.hi));
      SplitFirst(Decimal(b.hi), '-', "");
      assert BaseText(b)[|Decimal(b.lo)|] == '-';
    }
  }

  lemma PiecesOf(p: Part)
    ensures Split(PartText(p), '/') ==
      if p.step.None? then [BaseText(p.base)] else [BaseText(p.base), Decimal(p.step.value)]
  {
    hide BaseText;
    hide Decimal;
    hide Split;
    BaseFacts(p.base);
    if p.step.None? {
      SplitFirst(BaseText(p.base), '/', "");
    } else {
      DecimalDigits(p.step.value);
      SplitFirst(BaseText(p.base), '/', Decimal(p.step.value));
      SplitFirst(Decimal(p.step.value), '/', "");
    }
  }

  /** The parser reads each part as what it means, and rejects exactly the meaningless ones. */
  lemma PartMeans(p: Part, min: int, max: int, number: Number)
    requires min <= max && ReadsDecimals(number)
    ensures PartRange(PartText(p), min, max, number) == PartMeaning(p, min, max)
  {
    hide BaseText;
    hide BaseBounds;
    hide Decimal;
    hide Split;
    hide Trim;
    hide PartText;
    PartFacts(p);
    TrimNone(PartText(p));
    PiecesOf(p);
    BaseMeans(p.base, min, max, number);
  }

  // ---------------------------------------------------------------- one field

  lemma {:induction false} PartsMean(ps: Parts, n: nat, min: int, max: int, number: Number)
    requires min <= max && ReadsDecimals(number) && n <= |ps|
    ensures var r := PartsValues(Texts(ps), n, min, max, number);
      && (r.Some? <==> Meaningful(ps[..n], min, max))
      && (r.Some? ==> forall v :: v in r.value <==> Named(ps[..n], min, max, v))
  {
    hide PartRange;
    hide PartMeaning;
    hide PartText;
    hide Denoted;
    if n > 0 {
      var before, now, last := ps[..n - 1], ps[..n], ps[n - 1];
      PartsMean(ps, n - 1, min, max, number);
      PartMeans(last, min, max, number);
      assert now == before + [last];
      forall v
        ensures Named(now, min, max, v) <==>
          Named(before, min, max, v) || (PartMeaning(last, min, max).Some? && v in Denoted(PartMeaning(last, min, max).value))
      {
        NamedSnoc(before, last, min, max, v);
      }
      assert Meaningful(now, min, max) <==> Meaningful(before, min, max) && PartMeaning(last, min, max).Some? by {
        if Meaningful(now, min, max) {
          assert now[n - 1] == last;
          assert forall i :: 0 <= i < n - 1 ==> before[i] == now[i];
        }
      }
    }
  }

  lemma NamedSnoc(before: Parts, last: Part, min: int, max: int, v: int)
    ensures Named(before + [last], min, max, v) <==>
      Named(before, min, max, v) || (PartMeaning(last, min, max).Some? && v in Denoted(PartMeaning(last, min, max).value))
  {
    hide PartMeaning;
    hide Denoted;
    var now := before + [last];
    assert now[|before|] == last;
    if Named(before, min, max, v) {
      var i :| 0 <= i < |before| && PartMeaning(before[i], min, max).Some? && v in Denoted(PartMeaning(before[i], min, max).value);
      assert now[i] == before[i];
    }
  }

  lemma TextsFacts(ps: Parts)
    ensures SeparatorFree(Texts(ps), ',')
    ensures forall i :: 0 <= i < |ps| ==> NoSpaces(Texts(ps)[i]) && Texts(ps)[i] != ""
  {
    hide PartText;
    forall i | 0 <= i < |ps|
      ensures ',' !in Texts(ps)[i] && NoSpaces(Texts(ps)[i]) && Texts(ps)[i] != ""
    {
      PartFacts(ps[i]);
    }
  }

  lemma {:induction false} JoinNoSpaces(parts: seq<string>, sep: char)
    requires |parts| > 0 && !IsSpace(sep)
    requires forall i :: 0 <= i < |parts| ==> NoSpaces(parts[i]) && parts[i] != ""
    ensures NoSpaces(Join(parts, sep)) && Join(parts, sep) != ""
  {
    hide IsSpace;
    if |parts| > 1 {
      JoinNoSpaces(parts[1..], sep);
    }
  }

  lemma FieldFacts(ps: Parts)
    requires ps != []
    ensures NoSpaces(FieldText(ps)) && FieldText(ps) != ""
    ensures Split(FieldText(ps), ',') == Texts(ps)
    ensures FieldText(ps) == "*" <==> ps == [Part(Star, None)]
  {
    hide Split;
    hide Texts;
    hide PartText;
    TextsFacts(ps);
    JoinNoSpaces(Texts(ps), ',');
    SplitJoin(Texts(ps), ',');
    SplitFirst("*", ',', "");
    PartFacts(ps[0]);
    assert ps == [Part(Star, None)] ==> Texts(ps) == ["*"];
  }

  lemma FieldMeans(ps: Parts, min: int, max: int, number: Number)
    requires min <= max && ReadsDecimals(number) && ps != []
    ensures FieldOf(FieldText(ps), min, max, number) == FieldMeaning(ps, min, max)
  {
    hide FieldText;
    hide Texts;
    hide Split;
    hide Trim;
    hide PartsValues;
    hide Named;
    hide Meaningful;
    FieldFacts(ps);
    TrimNone(FieldText(ps));
    PartsMean(ps, |ps|, min, max, number);
    assert ps[..|ps|] == ps;
    var values := PartsValues(Texts(ps), |ps|, min, max, number);
    if values.Some? {
      assert values.value == set v | min <= v <= max && Named(ps, min, max, v);
    }
  }

  // ---------------------------------------------------------------- the expression

  lemma {:induction false} SplitSpacesFirst(p: string, tail: string)
    requires NoSpaces(p) && tail != "" && !IsSpace(tail[0])
    ensures SplitSpaces(p) == [p]
    ensures SplitSpaces(p + [' '] + tail) == [p] + SplitSpaces(tail)
  {
    if p == [] {
      var s := [' '] + tail;
      assert p + [' '] + tail == s;
      assert s[1..] == tail;
      assert TrimStart(tail) == tail;
      assert TrimStart(s) == tail;
    } else {
      SplitSpacesFirst(p[1..], tail);
      assert (p + [' '] + tail)[1..] == p[1..] + [' '] + tail;
      assert p == [p[0]] + p[1..];
    }
  }

  ghost predicate Words(parts: seq<string>) {
    forall i :: 0 <= i < |parts| ==> NoSpaces(parts[i]) && parts[i] != ""
  }

  lemma {:induction false} SplitSpacesJoin(parts: seq<string>)
    requires |parts| > 0 && Words(parts)
    ensures SplitSpaces(Join(parts, ' ')) == parts
    ensures var s := Join(parts, ' '); s != "" && !IsSpace(s[0]) && !IsSpace(s[|s| - 1])
  {
    hide IsSpace;
    hide SplitSpaces;
    if |parts| == 1 {
      SplitSpacesFirst(parts[0], parts[0]);
    } else {
      var rest := parts[1..];
      SplitSpacesJoin(rest);
      SplitSpacesFirst(parts[0], Join(rest, ' '));
      assert parts == [parts[0]] + rest;
    }
  }

  /** For every expression, the parser finds in its text exactly what it means, and rejects it exactly if
      it means nothing. */
  lemma ExpressionMeans(e: Expression, number: Number)
    requires Complete(e) && ReadsDecimals(number)
    ensures CronOf(ExpressionText(e), number) == Meaning(e)
  {
    hide FieldText;
    hide FieldOf;
    hide FieldMeaning;
    hide SplitSpaces;
    hide Trim;
    hide Join;
    FieldFacts(e.minute);
    FieldFacts(e.hour);
    FieldFacts(e.dayOfMonth);
    FieldFacts(e.month);
    FieldFacts(e.dayOfWeek);
    SplitSpacesJoin(FieldTexts(e));
    TrimNone(ExpressionText(e));
    FieldMeans(e.minute, 0, 59, number);
    FieldMeans(e.hour, 0, 23, number);
    FieldMeans(e.dayOfMonth, 1, 31, number);
    FieldMeans(e.month, 1, 12, number);
    FieldMeans(e.dayOfWeek, 0, 6, number);
  }

  predicate Mentions(b: Base, v: nat) {
    match b case Star => false case One(w) => w == v case Span(lo, hi) => lo == v || hi == v
  }

  /** An expression that mentions day 7 anywhere in its day-of-week field is rejected, although the parser
      carries a normaliser that maps 7 to Sunday. */
  lemma SundayAsSevenRejected(e: Expression, i: nat, number: Number)
    requires Complete(e) && ReadsDecimals(number)
    requires i < |e.dayOfWeek| && Mentions(e.dayOfWeek[i].base, 7)
    ensures CronOf(ExpressionText(e), number).None?
  {
    hide CronOf;
    ExpressionMeans(e, number);
    assert PartMeaning(e.dayOfWeek[i], 0, 6).None?;
  }
}
