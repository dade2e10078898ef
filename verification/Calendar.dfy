/** The proleptic Gregorian calendar on day numbers: day 0 is 0001-01-01, a
    Monday.  This is the arithmetic the cron search gets from time.Time. */
module Calendar {
  import opened Division

  predicate Leap(y: int) {
    y % 4 == 0 && (y % 100 != 0 || y % 400 == 0)
  }

  function YearDays(y: int): int {
    if Leap(y) then 366 else 365
  }

  /** The day number of January 1st. */
  function YearStart(y: int): int
    decreases if y > 1 then y - 1 else 1 - y
  {
    if y == 1 then 0
    else if y > 1 then YearStart(y - 1) + YearDays(y - 1)
    else YearStart(y + 1) - YearDays(y)
  }

  function DaysIn(leap: bool, m: int): int
    requires 1 <= m <= 12
  {
    if m == 2 then (if leap then 29 else 28)
    else if m == 4 || m == 6 || m == 9 || m == 11 then 30 else 31
  }

  /** Days of the year before the first of month m. */
  function MonthStart(leap: bool, m: int): int
    requires 1 <= m <= 13
  {
    [0, 31, 59, 90, 120, 151, 181, 212, 243, 273, 304, 334, 365][m - 1] + (if leap && m > 2 then 1 else 0)
  }

  /** A date as a day number; a day past the end of its month runs over into
      the following one, as time.Date normalizes. */
  function DayNumber(y: int, m: int, d: int): int
    requires 1 <= m <= 12
  {
    YearStart(y) + MonthStart(Leap(y), m) + d - 1
  }

  const CYCLE: int := 146097  // days in 400 years

  function YearWithin(r: int, y: int): (res: int)
    requires 1 <= y <= 401 && YearStart(y) <= r < YearStart(401)
    ensures y <= res <= 400 && YearStart(res) <= r < YearStart(res + 1)
    decreases 401 - y
  {
    if r < YearStart(y + 1) then y else YearWithin(r, y + 1)
  }

  function YearOf(n: int): int {
    FullCycle();
    400 * (n / CYCLE) + YearWithin(n % CYCLE, 1)
  }

  lemma YearLength(y: int)
    ensures YearStart(y + 1) == YearStart(y) + YearDays(y)
  {
  }

  /** Counting multiples: y / k goes up exactly at the multiples of k. */
  lemma QuotientStep(y: int, k: int)
    requires k > 0
    ensures y / k == (y - 1) / k + (if y % k == 0 then 1 else 0)
  {
    var q := y / k;
    var r := y % k;
    assert y == k * q + r;
    if r == 0 {
      Quotient(y - 1, k, q - 1, k - 1);
    } else {
      Quotient(y - 1, k, q, r - 1);
    }
  }

  lemma MultipleOfMultiple(y: int, k: int, j: int)
    requires k > 0 && j > 0 && y % (j * k) == 0
    ensures y % k == 0
  {
    var q := y / (j * k);
    assert y == k * (j * q);
    Quotient(y, k, j * q, 0);
  }

  function LeapsBefore(y: int): int {
    (y - 1) / 4 - (y - 1) / 100 + (y - 1) / 400
  }

  lemma LeapCounted(y: int)
    ensures LeapsBefore(y + 1) == LeapsBefore(y) + (if Leap(y) then 1 else 0)
  {
    QuotientStep(y, 4);
    QuotientStep(y, 100);
    QuotientStep(y, 400);
    if y % 400 == 0 {
      MultipleOfMultiple(y, 100, 4);
    }
    if y % 100 == 0 {
      MultipleOfMultiple(y, 4, 25);
    }
  }

  lemma {:induction false} ClosedForm(y: int)
    ensures YearStart(y) == 365 * (y - 1) + LeapsBefore(y)
    decreases if y > 1 then y - 1 else 1 - y
  {
    if y > 1 {
      ClosedForm(y - 1);
      LeapCounted(y - 1);
    } else if y < 1 {
      ClosedForm(y + 1);
      LeapCounted(y);
    }
  }

  lemma FullCycle()
    ensures YearStart(401) == CYCLE
  {
    ClosedForm(401);
  }

  lemma LeapPeriodic(y: int, k: int)
    ensures Leap(400 * k + y) <==> Leap(y)
  {
    Shifted(y, 4, 100 * k);
    Shifted(y, 100, 4 * k);
    Shifted(y, 400, k);
  }

  lemma Shifted(n: int, k: int, q: int)
    requires k > 0
    ensures (k * q + n) % k == n % k
  {
    Quotient(k * q + n, k, q + n / k, n % k);
  }

  lemma {:induction false} YearStartWithinCycle(y: int, k: int)
    requires y >= 1
    ensures YearStart(400 * k + y) == YearStart(400 * k + 1) + YearStart(y)
  {
    if y > 1 {
      YearStartWithinCycle(y - 1, k);
      LeapPeriodic(y - 1, k);
      YearLength(400 * k + y - 1);
    }
  }

  lemma {:induction false} CycleStart(k: int)
    ensures YearStart(400 * k + 1) == CYCLE * k
    decreases if k > 0 then k else -k
  {
    FullCycle();
    if k > 0 {
      CycleStart(k - 1);
      YearStartWithinCycle(401, k - 1);
    } else if k < 0 {
      CycleStart(k + 1);
      YearStartWithinCycle(401, k);
    }
  }

  lemma YearBounds(n: int)
    ensures YearStart(YearOf(n)) <= n < YearStart(YearOf(n) + 1)
  {
    FullCycle();
    var q, r := n / CYCLE, n % CYCLE;
    var w := YearWithin(r, 1);
    CycleStart(q);
    YearStartWithinCycle(w, q);
    YearStartWithinCycle(w + 1, q);
    assert n == CYCLE * q + r;
  }

  lemma {:induction false} YearStartMonotone(y: int, z: int)
    requires y <= z
    ensures YearStart(y) + 365 * (z - y) <= YearStart(z)
    decreases z - y
  {
    if y < z {
      YearLength(z - 1);
      YearStartMonotone(y, z - 1);
    }
  }

  lemma YearUnique(n: int, y: int)
    requires YearStart(y) <= n < YearStart(y + 1)
    ensures YearOf(n) == y
  {
    YearBounds(n);
    if YearOf(n) < y {
      YearStartMonotone(YearOf(n) + 1, y);
    } else if y < YearOf(n) {
      YearStartMonotone(y + 1, YearOf(n));
    }
  }

  function MonthWithin(leap: bool, r: int, m: int): (res: int)
    requires 1 <= m <= 12 && MonthStart(leap, m) <= r < (if leap then 366 else 365)
    ensures m <= res <= 12 && MonthStart(leap, res) <= r < MonthStart(leap, res + 1)
    decreases 12 - m
  {
    if r < MonthStart(leap, m + 1) then m else MonthWithin(leap, r, m + 1)
  }

  function DayOfYear(n: int): (r: int)
    ensures 0 <= r < YearDays(YearOf(n))
  {
    YearBounds(n); YearLength(YearOf(n));
    n - YearStart(YearOf(n))
  }

  function MonthOf(n: int): (m: int)
    ensures 1 <= m <= 12
  {
    MonthWithin(Leap(YearOf(n)), DayOfYear(n), 1)
  }

  function DayOf(n: int): int {
    DayOfYear(n) - MonthStart(Leap(YearOf(n)), MonthOf(n)) + 1
  }

  function Weekday(n: int): int {
    (n + 1) % 7
  }

  /** A day of a year of the given kind. */
  predicate DayOfKind(leap: bool, m: int, d: int) {
    1 <= m <= 12 && 1 <= d <= DaysIn(leap, m)
  }

  predicate RealDate(y: int, m: int, d: int) {
    DayOfKind(Leap(y), m, d)
  }

  lemma MonthLength(leap: bool, m: int)
    requires 1 <= m <= 12
    ensures MonthStart(leap, m + 1) == MonthStart(leap, m) + DaysIn(leap, m)
    ensures 0 <= MonthStart(leap, m) < MonthStart(leap, m + 1) <= (if leap then 366 else 365)
  {
  }

  lemma DateNotBefore(y: int, m: int, d: int)
    requires 1 <= m <= 12 && d >= 1
    ensures DayNumber(y, m, d) >= YearStart(y)
  {
  }

  lemma DateInYear(y: int, m: int, d: int)
    requires RealDate(y, m, d)
    ensures YearStart(y) <= DayNumber(y, m, d) < YearStart(y + 1)
  {
    YearLength(y);
    MonthLength(Leap(y), m);
  }

  /** Reading the calendar fields of a real date gives the date back. */
  lemma DateRoundTrip(y: int, m: int, d: int)
    requires RealDate(y, m, d)
    ensures YearOf(DayNumber(y, m, d)) == y
    ensures MonthOf(DayNumber(y, m, d)) == m
    ensures DayOf(DayNumber(y, m, d)) == d
  {
    var n, r := DayNumber(y, m, d), MonthStart(Leap(y), m) + d - 1;
    DateInYear(y, m, d);
    MonthLength(Leap(y), m);
    YearUnique(n, y);
    hide YearOf, YearStart, MonthStart, MonthWithin, DaysIn;
    assert n == YearStart(y) + r;
    MonthStartMonotone(Leap(y), 1, m);
    MonthFound(Leap(y), r, m, 1);
  }

  lemma MonthStartMonotone(leap: bool, k: int, m: int)
    requires 1 <= k <= m <= 12
    ensures MonthStart(leap, k) <= MonthStart(leap, m)
  {
  }

  lemma {:induction false} MonthFound(leap: bool, r: int, m: int, from: int)
    requires 1 <= from <= m <= 12 && r < (if leap then 366 else 365)
    requires MonthStart(leap, from) <= MonthStart(leap, m) <= r < MonthStart(leap, m + 1)
    ensures MonthWithin(leap, r, from) == m
    decreases m - from
  {
    hide MonthStart;
    if from < m {
      MonthStartMonotone(leap, from + 1, m);
      MonthFound(leap, r, m, from + 1);
    }
  }

  /** Every day number is the real date its fields spell. */
  lemma FieldsRoundTrip(n: int)
    ensures RealDate(YearOf(n), MonthOf(n), DayOf(n))
    ensures DayNumber(YearOf(n), MonthOf(n), DayOf(n)) == n
  {
    YearBounds(n);
    YearLength(YearOf(n));
  }

  // ---------------------------------------------------------------- dates in closed form

  /** The leap days up to the end of February of the year. */
  function LeapDays(y: int): int {
    y / 4 - y / 100 + y / 400
  }

  /** Sakamoto's formula for the day of the week of a date, Sunday being 0. */
  function CivilWeekday(y: int, m: int, d: int): int
    requires 1 <= m <= 12
  {
    var a := if m <= 2 then y - 1 else y;
    (a + LeapDays(a) + [0, 3, 2, 5, 0, 3, 5, 1, 4, 6, 2, 4][m - 1] + d) % 7
  }

  /** The day number of a date in years that start in March: 365 days and the leap
      days a year, and months of 30.6 days. */
  lemma CivilDay(y: int, m: int, d: int)
    requires RealDate(y, m, d)
    ensures var a := if m <= 2 then y - 1 else y;
            DayNumber(y, m, d) == 365 * a + LeapDays(a) + (153 * ((m + 9) % 12) + 2) / 5 + d - 307
  {
    ClosedForm(y);
    ClosedForm(y + 1);
    YearLength(y);
    hide YearStart, Leap;
    MonthCounted(Leap(y), m);
  }

  lemma MonthCounted(leap: bool, m: int)
    requires 1 <= m <= 12
    ensures var days := (153 * ((m + 9) % 12) + 2) / 5;
            MonthStart(leap, m) == if m <= 2 then days - 306 else days - 306 + if leap then 366 else 365
  {
  }

  /** The weekday of a day number is that of its date. */
  lemma WeekdayIsCivil(n: int)
    ensures Weekday(n) == CivilWeekday(YearOf(n), MonthOf(n), DayOf(n)) && 0 <= Weekday(n) <= 6
  {
    var (y, m, d) := (YearOf(n), MonthOf(n), DayOf(n));
    FieldsRoundTrip(n);
    CivilDay(y, m, d);
    MonthWeekday(m);
    hide YearOf, MonthOf, DayOf, YearStart, RealDate, DayNumber, LeapDays;
    var a := if m <= 2 then y - 1 else y;
    WeekdayShift(a, LeapDays(a), (153 * ((m + 9) % 12) + 2) / 5 - 306, [0, 3, 2, 5, 0, 3, 5, 1, 4, 6, 2, 4][m - 1], d);
  }

  /** A year of 365 days moves the weekday by one. */
  lemma WeekdayShift(a: int, leaps: int, k: int, t: int, d: int)
    requires (k - t) % 7 == 0
    ensures (365 * a + leaps + k + d) % 7 == (a + leaps + t + d) % 7
  {
    var q := (k - t) / 7;
    assert 365 * a + leaps + k + d == 7 * (52 * a + q) + (a + leaps + t + d);
    Shifted(a + leaps + t + d, 7, 52 * a + q);
  }

  lemma MonthWeekday(m: int)
    requires 1 <= m <= 12
    ensures ((153 * ((m + 9) % 12) + 2) / 5 - 306 - [0, 3, 2, 5, 0, 3, 5, 1, 4, 6, 2, 4][m - 1]) % 7 == 0
  {
  }

  lemma WeekdayAhead(a: int, w: int) returns (k: int)
    requires 0 <= w <= 6
    ensures 0 <= k <= 6 && (a + k) % 7 == w
  {
    var q, r := a / 7, a % 7;
    k := if w >= r then w - r else w - r + 7;
    Quotient(a + k, 7, if w >= r then q else q + 1, w);
  }

  /** Any weekday occurs among the first seven days of any month. */
  lemma WeekdayInMonth(y: int, m: int, w: int) returns (d: int)
    requires 1 <= m <= 12 && 0 <= w <= 6
    ensures 1 <= d <= 7 && RealDate(y, m, d) && Weekday(DayNumber(y, m, d)) == w
  {
    var n := DayNumber(y, m, 1);
    var k := WeekdayAhead(n + 1, w);
    d := 1 + k;
    assert DayNumber(y, m, d) == n + k;
  }
}
