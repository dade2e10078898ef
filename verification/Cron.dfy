/** Parsed cron expressions and the search for the next fire time.  Times are
    clock readings in a zone with a fixed offset of whole minutes, counted from
    0001-01-01 00:00: in minutes inside the search, in nanoseconds outside. */
module Cron {
  import opened Wrappers
  import opened Calendar

  datatype Field = Field(values: set<int>, star: bool)
  datatype Expr = Expr(minute: Field, hour: Field, dom: Field, month: Field, dow: Field)

  const DAY: int := 1440
  const MINUTE: int := 60_000_000_000

  /** Day-of-month and day-of-week: either matches when both are restricted. */
  predicate MatchDay(c: Expr, day: int, dow: int) {
    if !c.dom.star && !c.dow.star then day in c.dom.values || dow in c.dow.values
    else if !c.dom.star then day in c.dom.values
    else if !c.dow.star then dow in c.dow.values
    else true
  }

  predicate Matches(c: Expr, u: int) {
    && u % 60 in c.minute.values
    && u / 60 % 24 in c.hour.values
    && MatchDay(c, DayOf(u / DAY), Weekday(u / DAY))
    && MonthOf(u / DAY) in c.month.values
  }

  /** Five years on at the same time of day, as AddDate(5, 0, 0). */
  function Horizon(t: int): int {
    var n := t / DAY;
    DayNumber(YearOf(n) + 5, MonthOf(n), DayOf(n)) * DAY + t % DAY
  }

  function FirstMatch(c: Expr, t: int, limit: int): Option<int>
    decreases limit - t
  {
    if t >= limit then None else if Matches(c, t) then Some(t) else FirstMatch(c, t + 1, limit)
  }

  /** The first match is the least matching minute of the window, if any. */
  lemma {:induction false} FirstMatchIsLeast(c: Expr, t: int, limit: int)
    ensures match FirstMatch(c, t, limit)
            case Some(r) => t <= r < limit && Matches(c, r) && forall u :: t <= u < r ==> !Matches(c, u)
            case None => forall u :: t <= u < limit ==> !Matches(c, u)
    decreases limit - t
  {
    if t < limit && !Matches(c, t) {
      FirstMatchIsLeast(c, t + 1, limit);
    }
  }

  /** The first minute the search considers. */
  function SearchStart(from: int): int {
    from / MINUTE + 1
  }

  function NextTime(c: Expr, from: int): Option<int> {
    var t := SearchStart(from);
    match FirstMatch(c, t, Horizon(t))
    case Some(u) => Some(u * MINUTE)
    case None => None
  }

  /** The loop of Next.  A zero `from` stands for the current time. */
  method Next(c: Expr, from: Option<int>, now: int) returns (next: Option<int>)
    ensures next == NextTime(c, if from.Some? then from.value else now)
  {
    var start := if from.Some? then from.value else now;
    var t := SearchStart(start);
    var limit := Horizon(t);
    ghost var found := FirstMatch(c, t, limit);
    while t < limit
      invariant FirstMatch(c, t, limit) == found
      decreases limit - t
    {
      if Matches(c, t) {
        return Some(t * MINUTE);
      }
      t := t + 1;
    }
    return None;
  }

  /** The search ends five years on, at the same time of day and the same date, or on
      March 1st if that date is a February 29th. */
  lemma HorizonIs(t: int)
    ensures var (n, h) := (t / 1440, Horizon(t));
            && h % 1440 == t % 1440 && YearOf(h / 1440) == YearOf(n) + 5
            && (if MonthOf(n) == 2 && DayOf(n) == 29 then MonthOf(h / 1440) == 3 && DayOf(h / 1440) == 1
                else MonthOf(h / 1440) == MonthOf(n) && DayOf(h / 1440) == DayOf(n))
  {
    var n := t / DAY;
    var (y, m, d) := (YearOf(n), MonthOf(n), DayOf(n));
    FieldsRoundTrip(n);
    var day := DayNumber(y + 5, m, d);
    MinuteParts(day, t % DAY);
    FiveYearsOn(y, m, d);
    hide YearOf, MonthOf, DayOf, DayNumber, RealDate;
  }

  lemma FiveYearsOn(y: int, m: int, d: int)
    requires RealDate(y, m, d)
    ensures var day := DayNumber(y + 5, m, d);
            && YearOf(day) == y + 5
            && (if m == 2 && d == 29 then MonthOf(day) == 3 && DayOf(day) == 1
                else MonthOf(day) == m && DayOf(day) == d)
  {
    hide YearOf, MonthOf, DayOf, YearStart;
    if m == 2 && d == 29 {
      LeapDayMoves(y);
      DateRoundTrip(y + 5, 3, 1);
    } else {
      DateRoundTrip(y + 5, m, d);
    }
  }

  lemma MinuteParts(day: int, r: int)
    requires 0 <= r < DAY
    ensures (day * DAY + r) / DAY == day && (day * DAY + r) % DAY == r
  {
  }

  /** No year five after a leap year is one. */
  lemma LeapDayMoves(y: int)
    requires Leap(y)
    ensures DayNumber(y + 5, 2, 29) == DayNumber(y + 5, 3, 1)
  {
    assert (y + 5) % 4 == 1;
  }

  lemma Aligned(from: int, u: int)
    ensures from < u * MINUTE <==> SearchStart(from) <= u
  {
    assert from == MINUTE * (from / MINUTE) + from % MINUTE;
  }

  /** The answer is the least minute-aligned time after `from` that matches. */
  lemma NextIsLeast(c: Expr, from: int)
    requires NextTime(c, from).Some?
    ensures var next := NextTime(c, from).value;
            && from < next && next % 60_000_000_000 == 0 && Matches(c, next / 60_000_000_000)
            && forall u :: from < u * 60_000_000_000 < next ==> !Matches(c, u)
  {
    var t := SearchStart(from);
    var w := FirstMatch(c, t, Horizon(t)).value;
    FirstMatchIsLeast(c, t, Horizon(t));
    Aligned(from, w);
    assert (w * MINUTE) / MINUTE == w && (w * MINUTE) % MINUTE == 0;
    forall u | from < u * MINUTE < w * MINUTE
      ensures !Matches(c, u)
    {
      Aligned(from, u);
    }
  }

  lemma NextIsLater(c: Expr, from: int)
    ensures NextTime(c, from).Some? ==> NextTime(c, from).value > from
  {
    if NextTime(c, from).Some? {
      NextIsLeast(c, from);
    }
  }

  // ---------------------------------------------------------------- liveness

  /** What the parser guarantees: every field has a value in its range. */
  ghost predicate Usable(c: Expr) {
    && (exists v :: 0 <= v <= 59 && v in c.minute.values)
    && (exists v :: 0 <= v <= 23 && v in c.hour.values)
    && (exists v :: 1 <= v <= 31 && v in c.dom.values)
    && (exists v :: 1 <= v <= 12 && v in c.month.values)
    && (exists v :: 0 <= v <= 6 && v in c.dow.values)
  }

  ghost predicate ChosenPair(c: Expr, m: int, d: int) {
    m in c.month.values && d in c.dom.values
  }

  /** Some chosen (day, month) pair is a date of every year of the kind. */
  ghost predicate PairIn(c: Expr, leap: bool) {
    exists m, d :: ChosenPair(c, m, d) && DayOfKind(leap, m, d)
  }

  function StartYear(from: int): int {
    YearOf(SearchStart(from) / DAY)
  }

  lemma MinuteOfDay(day: int, h: int, m: int)
    requires 0 <= h <= 23 && 0 <= m <= 59
    ensures var u := day * DAY + h * 60 + m;
            u % 60 == m && u / 60 % 24 == h && u / DAY == day
  {
    var u := day * DAY + h * 60 + m;
    assert u / 60 == day * 24 + h && u % 60 == m;
    assert u / DAY == day;
  }

  /** A matching day in one of the next four full years is found. */
  lemma DayFires(c: Expr, from: int, day: int)
    requires Usable(c)
    requires StartYear(from) < YearOf(day) < StartYear(from) + 5
    requires MonthOf(day) in c.month.values && MatchDay(c, DayOf(day), Weekday(day))
    ensures NextTime(c, from).Some?
  {
    var m: int :| 0 <= m <= 59 && m in c.minute.values;
    var h: int :| 0 <= h <= 23 && h in c.hour.values;
    var u := day * DAY + h * 60 + m;
    MinuteOfDay(day, h, m);
    assert Matches(c, u);
    DayInWindow(from, day);
    FirstMatchIsLeast(c, SearchStart(from), Horizon(SearchStart(from)));
  }

  lemma DayInWindow(from: int, day: int)
    requires StartYear(from) < YearOf(day) < StartYear(from) + 5
    ensures SearchStart(from) < day * DAY
    ensures (day + 1) * DAY <= Horizon(SearchStart(from))
  {
    var t := SearchStart(from);
    var n := t / DAY;
    FieldsRoundTrip(n);
    LaterYearLaterDay(n, day);
    BeforeYearStart(day, YearOf(n) + 5);
    DateNotBefore(YearOf(n) + 5, MonthOf(n), DayOf(n));
    DaysAsMinutes(t, n, day, DayNumber(YearOf(n) + 5, MonthOf(n), DayOf(n)));
  }

  lemma LaterYearLaterDay(n: int, day: int)
    requires YearOf(n) < YearOf(day)
    ensures n < day
  {
    YearBounds(n);
    YearBounds(day);
    YearStartMonotone(YearOf(n) + 1, YearOf(day));
  }

  lemma BeforeYearStart(day: int, y: int)
    requires YearOf(day) < y
    ensures day < YearStart(y)
  {
    YearBounds(day);
    YearStartMonotone(YearOf(day) + 1, y);
  }

  lemma DaysAsMinutes(t: int, n: int, day: int, far: int)
    requires n == t / DAY && n < day < far
    ensures t < day * DAY && (day + 1) * DAY <= far * DAY + t % DAY
  {
    assert t == DAY * n + t % DAY;
  }

  /** The zero time needs an unrestricted day-of-week and a restricted
      day-of-month, and no chosen pair is a date of the years in between. */
  lemma NoneInFullYears(c: Expr, from: int)
    requires Usable(c) && NextTime(c, from).None?
    ensures c.dow.star && !c.dom.star
    ensures forall y :: StartYear(from) < y < StartYear(from) + 5 ==> !PairIn(c, Leap(y))
  {
    var y := StartYear(from) + 1;
    var mo: int :| 1 <= mo <= 12 && mo in c.month.values;
    if c.dom.star && c.dow.star {
      DateRoundTrip(y, mo, 1);
      DayFires(c, from, DayNumber(y, mo, 1));
    }
    if !c.dow.star {
      var w: int :| 0 <= w <= 6 && w in c.dow.values;
      var d := WeekdayInMonth(y, mo, w);
      DateRoundTrip(y, mo, d);
      DayFires(c, from, DayNumber(y, mo, d));
    }
    forall z | StartYear(from) < z < StartYear(from) + 5
      ensures !PairIn(c, Leap(z))
    {
      if PairIn(c, Leap(z)) {
        var m, d :| ChosenPair(c, m, d) && DayOfKind(Leap(z), m, d);
        DateRoundTrip(z, m, d);
        DayFires(c, from, DayNumber(z, m, d));
      }
    }
  }

  predicate TimeChosen(c: Expr, u: int) {
    u % 60 in c.minute.values && u / 60 % 24 in c.hour.values
  }

  /** The minute falls on a chosen (day, month) pair. */
  predicate DateChosen(c: Expr, u: int) {
    MonthOf(u / DAY) in c.month.values && DayOf(u / DAY) in c.dom.values
  }

  predicate InWindow(from: int, u: int) {
    SearchStart(from) <= u < Horizon(SearchStart(from))
  }

  /** From each start the zero time is returned if and only if day-of-week is
      unrestricted, day-of-month is not, and no chosen minute of the five-year
      window falls on a chosen pair. */
  lemma NoneIff(c: Expr, from: int)
    requires Usable(c)
    ensures NextTime(c, from).None? <==>
      c.dow.star && !c.dom.star && forall u :: InWindow(from, u) && TimeChosen(c, u) ==> !DateChosen(c, u)
  {
    var t := SearchStart(from);
    if NextTime(c, from).None? {
      NoneInFullYears(c, from);
    }
    FirstMatchIsLeast(c, t, Horizon(t));
    hide Horizon, MonthOf, DayOf, Weekday, FirstMatch;
    assert c.dow.star && !c.dom.star ==> forall u :: Matches(c, u) == (TimeChosen(c, u) && DateChosen(c, u));
  }

  /** The zero time means that no date of the window, whole days of the partial
      first and last years included, is a chosen pair. */
  lemma NoneMeansNoDate(c: Expr, from: int, n: int)
    requires Usable(c) && NextTime(c, from).None?
    requires SearchStart(from) <= n * DAY && (n + 1) * DAY <= Horizon(SearchStart(from))
    ensures c.dow.star && !c.dom.star && !ChosenPair(c, MonthOf(n), DayOf(n))
  {
    NoneIff(c, from);
    var m: int :| 0 <= m <= 59 && m in c.minute.values;
    var h: int :| 0 <= h <= 23 && h in c.hour.values;
    var u := n * DAY + h * 60 + m;
    MinuteOfDay(n, h, m);
    assert InWindow(from, u) && TimeChosen(c, u);
  }

  /** The expressions that fire from every start time. */
  ghost predicate Live(c: Expr) {
    !c.dow.star || c.dom.star || PairIn(c, false)
  }

  lemma CommonYearPair(c: Expr, leap: bool)
    requires PairIn(c, false)
    ensures PairIn(c, leap)
  {
    var m, d :| ChosenPair(c, m, d) && DayOfKind(false, m, d);
    assert DayOfKind(leap, m, d);
  }

  /** Year y is followed by five common years, as 2096 is. */
  predicate DryYear(y: int) {
    !Leap(y + 1) && !Leap(y + 2) && !Leap(y + 3) && !Leap(y + 4) && !Leap(y + 5)
  }

  lemma DryYearExists() returns (y: int)
    ensures DryYear(y)
  {
    y := 2096;
  }

  lemma DrySpellYears(n: int, y: int)
    requires DayNumber(y, 3, 1) <= n < DayNumber(y + 5, 3, 1)
    ensures y <= YearOf(n) <= y + 5
    ensures YearOf(n) == y ==> DayOfYear(n) >= MonthStart(Leap(y), 3)
  {
    DateNotBefore(y, 3, 1);
    DateInYear(y + 5, 3, 1);
    if YearOf(n) < y {
      BeforeYearStart(n, y);
    }
    if y + 5 < YearOf(n) {
      YearBounds(n);
      YearStartMonotone(y + 6, YearOf(n));
    }
  }

  /** From March of a dry year on, five years pass without a leap day. */
  lemma DrySpellDays(n: int, y: int)
    requires DryYear(y) && DayNumber(y, 3, 1) <= n < DayNumber(y + 5, 3, 1)
    ensures DayOfKind(false, MonthOf(n), DayOf(n))
  {
    FieldsRoundTrip(n);
    DrySpellYears(n, y);
    if YearOf(n) == y {
      LateInYear(n);
    }
    hide YearOf, MonthOf, DayOf, DayNumber;
  }

  lemma LateInYear(n: int)
    requires DayOfYear(n) >= MonthStart(Leap(YearOf(n)), 3)
    ensures MonthOf(n) >= 3
  {
    hide YearOf, YearStart;
  }

  lemma StartAfterMinute(k: int)
    ensures SearchStart((k - 1) * MINUTE) == k
  {
  }

  lemma HorizonAtMidnight(y: int, m: int, d: int)
    requires RealDate(y, m, d)
    ensures Horizon(DayNumber(y, m, d) * DAY) == DayNumber(y + 5, m, d) * DAY
  {
    var n := DayNumber(y, m, d);
    DateRoundTrip(y, m, d);
    MidnightMinutes(n);
  }

  lemma MidnightMinutes(n: int)
    ensures (n * DAY) / DAY == n && (n * DAY) % DAY == 0
  {
  }

  lemma MinuteInDays(u: int, a: int, b: int)
    requires a * DAY <= u < b * DAY
    ensures a <= u / DAY < b
  {
  }

  lemma DrySpellMinute(c: Expr, u: int, y: int)
    requires !Live(c) && DryYear(y)
    requires DayNumber(y, 3, 1) * DAY <= u < DayNumber(y + 5, 3, 1) * DAY
    ensures !Matches(c, u)
  {
    if Matches(c, u) {
      var n := u / DAY;
      MinuteInDays(u, DayNumber(y, 3, 1), DayNumber(y + 5, 3, 1));
      assert ChosenPair(c, MonthOf(n), DayOf(n));
      DrySpellDays(n, y);
    }
  }

  lemma DryWindow(y: int) returns (from: int)
    ensures SearchStart(from) == DayNumber(y, 3, 1) * DAY
    ensures Horizon(SearchStart(from)) == DayNumber(y + 5, 3, 1) * DAY
  {
    var t := DayNumber(y, 3, 1) * DAY;
    from := (t - 1) * MINUTE;
    StartAfterMinute(t);
    HorizonAtMidnight(y, 3, 1);
  }

  lemma DrySpell(c: Expr) returns (from: int)
    requires !Live(c)
    ensures NextTime(c, from).None?
  {
    var y := DryYearExists();
    from := DryWindow(y);
    var t := SearchStart(from);
    FirstMatchIsLeast(c, t, Horizon(t));
    var r := FirstMatch(c, t, Horizon(t));
    if r.Some? {
      DrySpellMinute(c, r.value, y);
    }
  }

  /** An expression fires from every start time exactly when day-of-week is
      restricted, day-of-month is not, or a chosen pair is a date of a common
      year. */
  lemma FiresFromEveryStart(c: Expr)
    requires Usable(c)
    ensures (forall from :: NextTime(c, from).Some?) <==> Live(c)
  {
    if Live(c) {
      forall from
        ensures NextTime(c, from).Some?
      {
        if NextTime(c, from).None? {
          NoneInFullYears(c, from);
          CommonYearPair(c, Leap(StartYear(from) + 1));
        }
      }
    } else {
      var from := DrySpell(c);
    }
  }

  lemma LongestMonth(leap: bool, m: int, d: int)
    requires DayOfKind(leap, m, d)
    ensures DayOfKind(true, m, d)
  {
  }

  /** A pair list with no date even in a leap year never fires. */
  lemma NeverFires(c: Expr, from: int)
    requires c.dow.star && !c.dom.star && !PairIn(c, true)
    ensures NextTime(c, from).None?
  {
    var t := SearchStart(from);
    FirstMatchIsLeast(c, t, Horizon(t));
    forall u | t <= u < Horizon(t)
      ensures !Matches(c, u)
    {
      if Matches(c, u) {
        var n := u / DAY;
        FieldsRoundTrip(n);
        LongestMonth(Leap(YearOf(n)), MonthOf(n), DayOf(n));
        assert ChosenPair(c, MonthOf(n), DayOf(n));
      }
    }
  }
}
