/** The meaning of a cron text: which minutes its five fields select, and that the
    parsed expression matches, and Next finds, exactly these. */
module CronMeaning {
  import opened Wrappers
  import opened Division
  import opened Calendar
  import opened Cron
  import opened CronParser

  // ------------------------------------------------------- the walk inside the range

  /** What two additions of the step, the first of them overflowing, take off the
      loop variable. */
  function Drop(step: int): int {
    TWO_64 - 2 * step
  }

  predicate Strays(v: int, lo: int, step: int)
    requires step <= MAX_INT
  {
    v < lo && (lo - v) % Drop(step) == 0
  }

  lemma NoStrayNear(v: int, lo: int, step: int)
    requires step <= MAX_INT && lo - v < Drop(step)
    ensures !Strays(v, lo, step)
  {
    if v < lo {
      SmallRemainder(lo - v, Drop(step));
    }
  }

  lemma StraysFrom(v: int, lo: int, step: int)
    requires step <= MAX_INT
    ensures Strays(v, lo, step) <==> v == lo - Drop(step) || Strays(v, lo - Drop(step), step)
  {
    var k := Drop(step);
    AddModulus(lo - k - v, k);
    if v < lo && lo - k < v {
      SmallRemainder(lo - v, k);
    }
    if v == lo - k {
      Quotient(lo - v, k, 1, 0);
    }
  }

  /** A step that may overflow selects the first value and, every drop further
      down, whatever is left of the range below it. */
  lemma {:induction false} HugeWalk(lo: int, hi: int, step: int, v: int)
    requires 0 <= lo <= hi <= 59 && 1 <= step <= MAX_INT && HugeStep(step) && v >= 0
    ensures v in Walk(lo, hi, step) <==> v == lo || Strays(v, lo, step)
    decreases lo
  {
    WalkAdvances(lo, hi, step);
    var a := Add64(lo, step);
    if lo + step <= MAX_INT {
      NoStrayNear(v, lo, step);
    } else {
      WalkAdvances(a, hi, step);
      var b := Add64(a, step);
      assert b == lo - Drop(step);
      StraysFrom(v, lo, step);
      if b >= 0 {
        HugeWalk(b, hi, step, v);
      } else {
        WalkAdvances(b, hi, step);
        assert Walk(b, hi, step) == {b} + Walk(Add64(b, step), hi, step);
      }
    }
  }

  lemma LastInRange(lo: int, hi: int, step: int)
    requires step > 0 && lo <= hi
    ensures LastValue(lo, hi, step) <= hi
  {
    var a := hi - lo;
    assert a == step * (a / step) + a % step;
  }

  /** In the range of a field the loop inserts the denoted values and the stray
      ones, whatever the step. */
  lemma WalkInRange(lo: int, hi: int, step: int, v: int)
    requires 0 <= lo <= hi <= 59 && 1 <= step <= MAX_INT && v >= 0
    ensures v in Walk(lo, hi, step) <==> v in Denoted(lo, hi, step) || Strays(v, lo, step)
  {
    if HugeStep(step) {
      HugeWalk(lo, hi, step, v);
      DenotedFrom(lo, hi, step);
      assert Denoted(lo + step, hi, step) == {};
    } else {
      LastInRange(lo, hi, step);
      WalkIsDenoted(lo, hi, step);
      NoStrayNear(v, lo, step);
    }
  }

  // ---------------------------------------------------------------- parts and fields

  /** Where the walk of a part starts. */
  function Start(part: Part, min: int, names: map<string, int>): int {
    match part.range
    case Star => min
    case Span(a, _) => Meaning(a, names)
    case One(a) => Meaning(a, names)
  }

  /** A value the part selects though it does not denote it. */
  predicate PartStrays(part: Part, min: int, max: int, names: map<string, int>, v: int) {
    Legal(part, min, max, names) && Strays(v, Start(part, min, names), Stride(part.step))
  }

  predicate PartSelects(part: Part, min: int, max: int, names: map<string, int>, v: int) {
    PartDenotes(part, min, max, names, v) || PartStrays(part, min, max, names, v)
  }

  lemma PartInRange(part: Part, min: int, max: int, names: map<string, int>, v: int)
    requires FieldRange(min, max, names) && PartBounds(part, min, max, names).Ok? && v >= min
    ensures var b := PartBounds(part, min, max, names).value;
            Walking(b.0, b.1, b.2) && (v in Walk(b.0, b.1, b.2) <==> PartSelects(part, min, max, names, v))
  {
    BoundsInRange(part, min, max, names);
    BoundsLegal(part, min, max, names);
    BoundsMean(part, min, max, names, v);
    var b := PartBounds(part, min, max, names).value;
    hide Denoted, Walk;
    WalkInRange(b.0, b.1, b.2, v);
  }

  /** A part selects something else than it denotes exactly if one drop below its
      first value is still in the range of the field. */
  lemma StraysIff(part: Part, min: int, max: int, names: map<string, int>)
    requires FieldRange(min, max, names) && Legal(part, min, max, names)
    ensures (exists v :: min <= v <= max && PartSelects(part, min, max, names, v)
                         && !PartDenotes(part, min, max, names, v))
            <==> Start(part, min, names) - Drop(Stride(part.step)) >= min
  {
    BoundsInRange(part, min, max, names);
    var lo := Start(part, min, names);
    var step := Stride(part.step);
    var v := lo - Drop(step);
    StraysFrom(v, lo, step);
    if v >= min {
      assert PartSelects(part, min, max, names, v) && !PartDenotes(part, min, max, names, v);
    } else {
      forall v | min <= v <= max
        ensures !Strays(v, lo, step)
      {
        NoStrayNear(v, lo, step);
      }
    }
  }

  ghost predicate FieldSelects(parts: seq<Part>, min: int, max: int, names: map<string, int>, v: int) {
    exists i :: 0 <= i < |parts| && PartSelects(parts[i], min, max, names, v)
  }

  lemma SelectsSplits(parts: seq<Part>, min: int, max: int, names: map<string, int>, v: int)
    requires parts != []
    ensures var k := |parts| - 1;
            FieldSelects(parts, min, max, names, v)
            <==> FieldSelects(parts[..k], min, max, names, v) || PartSelects(parts[k], min, max, names, v)
  {
    var k := |parts| - 1;
    hide PartSelects;
    if FieldSelects(parts[..k], min, max, names, v) {
      var i :| 0 <= i < k && PartSelects(parts[..k][i], min, max, names, v);
      assert PartSelects(parts[i], min, max, names, v);
    }
    if FieldSelects(parts, min, max, names, v) && !PartSelects(parts[k], min, max, names, v) {
      var i :| 0 <= i < |parts| && PartSelects(parts[i], min, max, names, v);
      assert parts[..k][i] == parts[i];
    }
  }

  lemma {:induction false} PartsInRange(parts: seq<Part>, min: int, max: int, names: map<string, int>, v: int)
    requires FieldRange(min, max, names) && PartsValues(parts, min, max, names).Ok? && v >= min
    ensures v in PartsValues(parts, min, max, names).value <==> FieldSelects(parts, min, max, names, v)
    decreases |parts|
  {
    if parts != [] {
      var k := |parts| - 1;
      PartsInRange(parts[..k], min, max, names, v);
      PartInRange(parts[k], min, max, names, v);
      SelectsSplits(parts, min, max, names, v);
    }
  }

  /** Every field, in its range: the values it selects are those its parts denote
      and those a part strays to. */
  lemma FieldInRange(parts: seq<Part>, min: int, max: int, names: map<string, int>, v: int)
    requires FieldRange(min, max, names) && FieldOf(parts, min, max, names).Ok? && min <= v <= max
    ensures v in FieldOf(parts, min, max, names).value.values <==> FieldSelects(parts, min, max, names, v)
  {
    if PlainStar(parts) {
      assert PartDenotes(parts[0], min, max, names, v);
      assert PartSelects(parts[0], min, max, names, v);
    } else {
      PartsInRange(parts, min, max, names, v);
    }
  }

  /** No part comes back into the range after an overflow. */
  ghost predicate NoneStrays(parts: seq<Part>, min: int, names: map<string, int>) {
    forall i :: 0 <= i < |parts| ==> Start(parts[i], min, names) - Drop(Stride(parts[i].step)) < min
  }

  /** Then the field selects just what it denotes. */
  lemma SelectsDenoted(parts: seq<Part>, min: int, max: int, names: map<string, int>, v: int)
    requires FieldRange(min, max, names) && FieldOf(parts, min, max, names).Ok? && min <= v <= max
    requires NoneStrays(parts, min, names)
    ensures v in FieldOf(parts, min, max, names).value.values <==> FieldDenotes(parts, min, max, names, v)
  {
    FieldInRange(parts, min, max, names, v);
    FieldRefusedIff(parts, min, max, names);
    forall i | 0 <= i < |parts|
      ensures PartSelects(parts[i], min, max, names, v) <==> PartDenotes(parts[i], min, max, names, v)
    {
      StraysIff(parts[i], min, max, names);
    }
    hide PartSelects, PartDenotes;
  }

  // ---------------------------------------------------------------- expressions

  /** The day-of-week field, 7 being Sunday too. */
  ghost predicate WeekdaySelected(parts: seq<Part>, w: int) {
    FieldSelects(parts, 0, 7, WEEKDAYS, w) || (w == 0 && FieldSelects(parts, 0, 7, WEEKDAYS, 7))
  }

  /** The fold leaves the weekdays 0 to 6, Sunday chosen by either number. */
  lemma FoldMeans(parts: seq<Part>, w: int)
    requires FieldOf(parts, 0, 7, WEEKDAYS).Ok?
    ensures var days := FoldSunday(FieldOf(parts, 0, 7, WEEKDAYS).value).values;
            7 !in days && (0 <= w <= 6 ==> (w in days <==> WeekdaySelected(parts, w)))
  {
    FieldInRange(parts, 0, 7, WEEKDAYS, 7);
    if 0 <= w <= 6 {
      FieldInRange(parts, 0, 7, WEEKDAYS, w);
    }
  }

  ghost predicate DaySelected(fields: seq<seq<Part>>, day: int, w: int)
    requires |fields| == 5
  {
    var byDay := FieldSelects(fields[2], 1, 31, map[], day);
    var byWeekday := WeekdaySelected(fields[4], w);
    match (PlainStar(fields[2]), PlainStar(fields[4]))
    case (true, true) => true
    case (true, false) => byWeekday
    case (false, true) => byDay
    case (false, false) => byDay || byWeekday
  }

  /** The minute is one the text selects. */
  ghost predicate FiresAt(fields: seq<seq<Part>>, u: int)
    requires |fields| == 5
  {
    && FieldSelects(fields[0], 0, 59, map[], u % 60)
    && FieldSelects(fields[1], 0, 23, map[], u / 60 % 24)
    && var n := u / 1440;
       && DaySelected(fields, DayOf(n), CivilWeekday(YearOf(n), MonthOf(n), DayOf(n)))
       && FieldSelects(fields[3], 1, 12, MONTHS, MonthOf(n))
  }

  lemma StarsKept(parts: seq<Part>, min: int, max: int, names: map<string, int>)
    requires FieldRange(min, max, names) && FieldOf(parts, min, max, names).Ok?
    ensures FieldOf(parts, min, max, names).value.star <==> PlainStar(parts)
  {
  }

  lemma DateInRange(n: int)
    ensures 1 <= MonthOf(n) <= 12 && 1 <= DayOf(n) <= 31 && 0 <= Weekday(n) <= 6
  {
    FieldsRoundTrip(n);
    WeekdayIsCivil(n);
  }

  /** Names stand for numbers in the order of the calendar. */
  lemma NamesAreNumbers()
    ensures var months := ["jan", "feb", "mar", "apr", "may", "jun", "jul", "aug", "sep", "oct", "nov", "dec"];
            forall i :: 0 <= i < 12 ==> months[i] in MONTHS && MONTHS[months[i]] == i + 1
    ensures var days := ["sun", "mon", "tue", "wed", "thu", "fri", "sat"];
            forall i :: 0 <= i < 7 ==> days[i] in WEEKDAYS && WEEKDAYS[days[i]] == i
  {
  }

  lemma ParsedFields(fields: seq<seq<Part>>)
    requires CronOf(fields).Ok?
    ensures |fields| == 5
    ensures FieldOf(fields[0], 0, 59, map[]) == Ok(CronOf(fields).value.minute)
    ensures FieldOf(fields[1], 0, 23, map[]) == Ok(CronOf(fields).value.hour)
    ensures FieldOf(fields[2], 1, 31, map[]) == Ok(CronOf(fields).value.dom)
    ensures FieldOf(fields[3], 1, 12, MONTHS) == Ok(CronOf(fields).value.month)
    ensures FieldOf(fields[4], 0, 7, WEEKDAYS).Ok?
    ensures FoldSunday(FieldOf(fields[4], 0, 7, WEEKDAYS).value) == CronOf(fields).value.dow
  {
    hide FieldOf, FoldSunday;
  }

  lemma DayMatchesText(fields: seq<seq<Part>>, day: int, w: int)
    requires CronOf(fields).Ok? && 1 <= day <= 31 && 0 <= w <= 6
    ensures |fields| == 5 && (MatchDay(CronOf(fields).value, day, w) <==> DaySelected(fields, day, w))
  {
    ParsedFields(fields);
    FieldInRange(fields[2], 1, 31, map[], day);
    FoldMeans(fields[4], w);
    StarsKept(fields[2], 1, 31, map[]);
    StarsKept(fields[4], 0, 7, WEEKDAYS);
    hide CronOf, FieldOf, FieldSelects, WeekdaySelected, PlainStar;
  }

  /** The parsed expression matches exactly the minutes the text selects. */
  lemma MatchesText(fields: seq<seq<Part>>, u: int)
    requires CronOf(fields).Ok?
    ensures Matches(CronOf(fields).value, u) <==> FiresAt(fields, u)
  {
    var n := u / DAY;
    DateInRange(n);
    WeekdayIsCivil(n);
    ParsedFields(fields);
    FieldInRange(fields[0], 0, 59, map[], u % 60);
    FieldInRange(fields[1], 0, 23, map[], u / 60 % 24);
    FieldInRange(fields[3], 1, 12, MONTHS, MonthOf(n));
    DayMatchesText(fields, DayOf(n), Weekday(n));
    hide CronOf, FieldOf, FieldSelects, MatchDay, DaySelected, MonthOf, DayOf, Weekday, FoldSunday,
      CivilWeekday;
  }

  /** Next finds the first minute after `from` that the text selects; none means
      the text selects none in five years. */
  lemma NextOfText(fields: seq<seq<Part>>, from: int)
    requires CronOf(fields).Ok?
    ensures match NextTime(CronOf(fields).value, from)
            case Some(next) =>
              && from < next && next % 60_000_000_000 == 0 && FiresAt(fields, next / 60_000_000_000)
              && forall u :: from < u * 60_000_000_000 < next ==> !FiresAt(fields, u)
            case None => forall u :: InWindow(from, u) ==> !FiresAt(fields, u)
  {
    var c := CronOf(fields).value;
    forall u
      ensures Matches(c, u) <==> FiresAt(fields, u)
    {
      MatchesText(fields, u);
    }
    hide CronOf, FiresAt, Matches;
    if NextTime(c, from).Some? {
      NextIsLeast(c, from);
    } else {
      FirstMatchIsLeast(c, SearchStart(from), Horizon(SearchStart(from)));
    }
  }

  predicate AllLegal(parts: seq<Part>, min: int, max: int, names: map<string, int>) {
    forall i :: 0 <= i < |parts| ==> Legal(parts[i], min, max, names)
  }

  /** Five fields of well-formed parts. */
  predicate Wellformed(fields: seq<seq<Part>>) {
    && |fields| == 5
    && AllLegal(fields[0], 0, 59, map[]) && AllLegal(fields[1], 0, 23, map[]) && AllLegal(fields[2], 1, 31, map[])
    && AllLegal(fields[3], 1, 12, MONTHS) && AllLegal(fields[4], 0, 7, WEEKDAYS)
  }

  /** Which texts are accepted and what the accepted ones mean. */
  lemma TextMeans(fields: seq<seq<Part>>)
    ensures CronOf(fields).Ok? <==> Wellformed(fields)
    ensures CronOf(fields).Ok? ==> forall u :: Matches(CronOf(fields).value, u) <==> FiresAt(fields, u)
  {
    if |fields| == 5 {
      FieldRefusedIff(fields[0], 0, 59, map[]);
      FieldRefusedIff(fields[1], 0, 23, map[]);
      FieldRefusedIff(fields[2], 1, 31, map[]);
      FieldRefusedIff(fields[3], 1, 12, MONTHS);
      FieldRefusedIff(fields[4], 0, 7, WEEKDAYS);
    }
    hide FieldOf, Legal, FiresAt, Matches;
    if CronOf(fields).Ok? {
      forall u
        ensures Matches(CronOf(fields).value, u) <==> FiresAt(fields, u)
      {
        MatchesText(fields, u);
      }
    }
  }

  method ParseCron(fields: seq<seq<Part>>) returns (r: Result<Expr, Error>)
    ensures r == CronOf(fields)
    ensures r.Ok? <==> Wellformed(fields)
    ensures r.Ok? ==> forall u :: Matches(r.value, u) <==> FiresAt(fields, u)
  {
    TextMeans(fields);
    hide FiresAt, Matches, Wellformed, FieldOf;
    if |fields| != 5 {
      return Err(FieldCount);
    }
    var minute := ParseField(fields[0], 0, 59, map[]);
    if minute.Err? { return Err(minute.error); }
    var hour := ParseField(fields[1], 0, 23, map[]);
    if hour.Err? { return Err(hour.error); }
    var dom := ParseField(fields[2], 1, 31, map[]);
    if dom.Err? { return Err(dom.error); }
    var month := ParseField(fields[3], 1, 12, MONTHS);
    if month.Err? { return Err(month.error); }
    var dow := ParseField(fields[4], 0, 7, WEEKDAYS);
    if dow.Err? { return Err(dow.error); }
    var days := dow.value;
    if 7 in days.values {
      days := days.(values := (days.values + {0}) - {7});
    }
    return Ok(Expr(minute.value, hour.value, dom.value, month.value, days));
  }

  // ---------------------------------------------------------------- an overflow

  const ODD: Part := Part(Span(Number(5), Number(59)), Every(MAX_INT))

  /** "5-59/9223372036854775807" in the minute field selects 5, 3 and 1; only 5 is
      denoted. */
  lemma OverflowExample(v: int)
    requires 0 <= v <= 59
    ensures FieldOf([ODD], 0, 59, map[]).Ok?
    ensures v in FieldOf([ODD], 0, 59, map[]).value.values <==> v in {1, 3, 5}
    ensures FieldDenotes([ODD], 0, 59, map[], v) <==> v == 5
  {
    FieldRefusedIff([ODD], 0, 59, map[]);
    FieldInRange([ODD], 0, 59, map[], v);
    assert [ODD][0] == ODD;
    if 5 < v {
      SmallRemainder(v - 5, MAX_INT);
    }
    assert PartDenotes(ODD, 0, 59, map[], v) <==> v == 5;
    assert PartSelects(ODD, 0, 59, map[], v) <==> v in {1, 3, 5};
  }
}
