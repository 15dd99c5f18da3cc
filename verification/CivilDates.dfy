/** Civil-date arithmetic of the daemon's configuration. */
module CivilDates {
  import opened Events

  // ------------------------------------------------------------------- dates

  datatype Date = Date(year: int, month: int, day: int)

  predicate Leap(y: int) {
    y % 4 == 0 && (y % 100 != 0 || y % 400 == 0)
  }

  function MaxDay(y: int, m: int): int {
    if m == 2 then (if Leap(y) then 29 else 28)
    else if m == 4 || m == 6 || m == 9 || m == 11 then 30
    else 31
  }

  predicate Valid(d: Date) {
    1 <= d.month <= 12 && 1 <= d.day <= MaxDay(d.year, d.month)
  }

  /** Division truncating toward zero, as the source's `/`. */
  function Quot(a: int, b: int): int
    requires b > 0
  {
    if a >= 0 then a / b else -((-a) / b)
  }

  /** Days since 1970-01-01; `None` for an impossible date. */
  function DaysFromCivil(d: Date): Option<int> {
    if !Valid(d) then None
    else
      var y := if d.month <= 2 then d.year - 1 else d.year;
      var era := Quot(if y >= 0 then y else y - 399, 400);
      var yoe := y - era * 400;
      var mp := (d.month + 9) % 12;
      var doy := (153 * mp + 2) / 5 + d.day - 1;
      var doe := yoe * 365 + yoe / 4 - yoe / 100 + doy;
      Some(era * 146_097 + doe - 719_468)
  }

  function Next(d: Date): Date {
    if d.day < MaxDay(d.year, d.month) then d.(day := d.day + 1)
    else if d.month < 12 then Date(d.year, d.month + 1, 1)
    else Date(d.year + 1, 1, 1)
  }

  /** Days in all 1-March-to-end-of-February years up to and including `y`. */
  function LeapDays(y: int): int {
    365 * y + y / 4 - y / 100 + y / 400
  }

  function MonthStart(m: int): int {
    (153 * ((m + 9) % 12) + 2) / 5
  }

  lemma EraIsFloor(y: int)
    ensures Quot(if y >= 0 then y else y - 399, 400) == y / 400
  {
  }

  /** The era decomposition is the closed-form day count. */
  lemma DaysAreClosedForm(d: Date)
    requires Valid(d)
    ensures DaysFromCivil(d)
         == Some(ClosedForm(d.year, d.month, d.day))
  {
    var y := if d.month <= 2 then d.year - 1 else d.year;
    EraIsFloor(y);
    var era, yoe := y / 400, y - (y / 400) * 400;
    assert y / 4 == 100 * era + yoe / 4;
    assert y / 100 == 4 * era + yoe / 100;
  }

  lemma FourthYear(y: int)
    ensures y / 4 - (y - 1) / 4 == if y % 4 == 0 then 1 else 0
  {
  }

  lemma HundredthYear(y: int)
    ensures y / 100 - (y - 1) / 100 == if y % 100 == 0 then 1 else 0
  {
    var q, r := y / 100, y % 100;
    if r == 0 {
      assert y - 1 == 100 * (q - 1) + 99;
    } else {
      assert y - 1 == 100 * q + (r - 1);
    }
  }

  lemma FourHundredthYear(y: int)
    ensures y / 400 - (y - 1) / 400 == if y % 400 == 0 then 1 else 0
  {
    var q, r := y / 400, y % 400;
    if r == 0 {
      assert y - 1 == 400 * (q - 1) + 399;
    } else {
      assert y - 1 == 400 * q + (r - 1);
    }
  }

  lemma FourTimes(q: int)
    ensures (4 * q) % 4 == 0
  {
  }

  lemma HundredTimes(q: int)
    ensures (100 * q) % 100 == 0
  {
  }

  lemma CenturyIsFourthYear(y: int)
    requires y % 100 == 0
    ensures y % 4 == 0
  {
    var q := y / 100;
    assert y == 4 * (25 * q);
    FourTimes(25 * q);
  }

  lemma FourthCenturyIsCentury(y: int)
    requires y % 400 == 0
    ensures y % 100 == 0
  {
    var q := y / 400;
    assert y == 100 * (4 * q);
    HundredTimes(4 * q);
  }

  lemma YearLength(y: int)
    ensures LeapDays(y) == LeapDays(y - 1) + if Leap(y) then 366 else 365
  {
    FourthYear(y);
    HundredthYear(y);
    FourHundredthYear(y);
    if y % 100 == 0 {
      CenturyIsFourthYear(y);
    }
    if y % 400 == 0 {
      FourthCenturyIsCentury(y);
    }
  }

  lemma MonthLength(y: int, m: int)
    requires 1 <= m <= 12
    ensures m != 2 ==> MonthStart(if m == 12 then 1 else m + 1) == MonthStart(m) + MaxDay(y, m)
    ensures MonthStart(2) == 337 && MonthStart(3) == 0
  {
  }

  function ClosedForm(y: int, m: int, d: int): int {
    LeapDays(if m <= 2 then y - 1 else y) + MonthStart(m) + d - 1 - 719_468
  }

  function Day(d: Date): int {
    ClosedForm(d.year, d.month, d.day)
  }

  /** `d` is day number `x`. */
  predicate IsDay(d: Date, x: int) {
    Valid(d) && DaysFromCivil(d) == Some(x)
  }

  lemma IsDayIffClosedForm(d: Date, x: int)
    ensures IsDay(d, x) <==> Valid(d) && Day(d) == x
  {
    if Valid(d) {
      DaysAreClosedForm(d);
    }
  }

  lemma MonthEndSteps(y: int, m: int)
    requires 1 <= m <= 12
    ensures Day(Next(Date(y, m, MaxDay(y, m)))) == Day(Date(y, m, MaxDay(y, m))) + 1
  {
    MonthLength(y, m);
    if m == 2 {
      YearLength(y);
    }
  }

  lemma NextIsOneMore(d: Date)
    requires Valid(d)
    ensures Valid(Next(d)) && Day(Next(d)) == Day(d) + 1
  {
    if d.day == MaxDay(d.year, d.month) {
      MonthEndSteps(d.year, d.month);
    }
  }

  /** Each valid date's successor is valid and counts one day more. */
  lemma NextDayIsOneMore(d: Date, x: int)
    requires IsDay(d, x)
    ensures IsDay(Next(d), x + 1)
  {
    IsDayIffClosedForm(d, x);
    NextIsOneMore(d);
    IsDayIffClosedForm(Next(d), x + 1);
  }

  const Epoch: Date := Date(1970, 1, 1)

  lemma EpochIsDayZero()
    ensures IsDay(Epoch, 0)
  {
  }

  /** Counting naively, one day at a time. */
  function Later(d: Date, n: nat): Date {
    if n == 0 then d else Next(Later(d, n - 1))
  }

  /** What holds of a numbered date, and passes on to the next day, holds of
      every later one. */
  lemma {:induction false} CountUp(numbered: (Date, int) -> bool, d: Date, x: int, n: nat)
    requires numbered(d, x) && forall e, y | numbered(e, y) :: numbered(Next(e), y + 1)
    ensures numbered(Later(d, n), x + n)
  {
    if n > 0 {
      CountUp(numbered, d, x, n - 1);
      assert numbered(Later(d, n - 1), x + (n - 1));
    }
  }

  /** From any date, `n` steps of the calendar are `n` days of the formula; from
      the epoch, the formula is the count itself. */
  lemma DaysAreNaiveCounting(d: Date, x: int, n: nat)
    requires IsDay(d, x)
    ensures IsDay(Later(d, n), x + n)
  {
    forall e, y | IsDay(e, y)
      ensures IsDay(Next(e), y + 1)
    {
      NextDayIsOneMore(e, y);
    }
    CountUp(IsDay, d, x, n);
  }

  predicate Before(a: Date, b: Date) {
    a.year < b.year || (a.year == b.year && (a.month < b.month || (a.month == b.month && a.day < b.day)))
  }

  /** Any day of a month comes before the next month's first. */
  lemma BeforeNextMonth(d: Date)
    requires Valid(d)
    ensures Day(d) < Day(Next(Date(d.year, d.month, MaxDay(d.year, d.month))))
  {
    MonthEndSteps(d.year, d.month);
  }

  lemma {:induction false} FirstOfLaterMonth(d: Date, m: int)
    requires Valid(d) && d.month < m <= 12
    ensures Day(d) < Day(Date(d.year, m, 1))
    decreases m - d.month
  {
    BeforeNextMonth(d);
    if d.month + 1 < m {
      FirstOfLaterMonth(Date(d.year, d.month + 1, 1), m);
    }
  }

  lemma NewYear(d: Date)
    requires Valid(d)
    ensures Day(d) < Day(Date(d.year + 1, 1, 1))
  {
    if d.month < 12 {
      FirstOfLaterMonth(d, 12);
    }
    BeforeNextMonth(Date(d.year, 12, if d.month < 12 then 1 else d.day));
  }

  lemma {:induction false} FirstOfLaterYear(d: Date, y: int)
    requires Valid(d) && d.year < y
    ensures Day(d) < Day(Date(y, 1, 1))
    decreases y - d.year
  {
    NewYear(d);
    if d.year + 1 < y {
      FirstOfLaterYear(Date(d.year + 1, 1, 1), y);
    }
  }

  lemma ClosedFormIsMonotone(a: Date, b: Date)
    requires Valid(a) && Valid(b) && Before(a, b)
    ensures Day(a) < Day(b)
  {
    if a.year < b.year {
      FirstOfLaterYear(a, b.year);
      if b.month > 1 {
        FirstOfLaterMonth(Date(b.year, 1, 1), b.month);
      }
    } else if a.month < b.month {
      FirstOfLaterMonth(a, b.month);
    }
  }

  /** The day count is strictly monotone in the calendar order. */
  lemma DaysAreStrictlyMonotone(a: Date, x: int, b: Date, y: int)
    requires IsDay(a, x) && IsDay(b, y) && Before(a, b)
    ensures x < y
  {
    IsDayIffClosedForm(a, x);
    IsDayIffClosedForm(b, y);
    ClosedFormIsMonotone(a, b);
  }

  lemma DistinctDatesAreOrdered(a: Date, b: Date)
    requires a != b
    ensures Before(a, b) || Before(b, a)
  {
  }

  /** The day number says how far apart two dates are: counting that many days
      from the earlier one arrives at the later one. */
  lemma DayNumbersLocateDates(a: Date, x: int, b: Date, n: nat)
    requires IsDay(a, x) && IsDay(b, x + n)
    ensures Later(a, n) == b
  {
    DaysAreNaiveCounting(a, x, n);
    var c := Later(a, n);
    if c != b {
      DistinctDatesAreOrdered(c, b);
      if Before(c, b) {
        DaysAreStrictlyMonotone(c, x + n, b, x + n);
      } else {
        DaysAreStrictlyMonotone(b, x + n, c, x + n);
      }
    }
  }

  // -------------------------------------------------------------- i64 arithmetic

  predicate Fits(x: int) {
    I64_MIN <= x <= I64_MAX
  }

  /** Years for which `era * 146_097` and everything around it fits. */
  const YEAR_LIMIT: int := 25_000_000_000_000_000

  lemma DayOfEraFits(yoe: int, month: int, day: int)
    requires 0 <= yoe < 400 && 1 <= month <= 12 && 1 <= day <= 31
    ensures 0 <= yoe * 365 + yoe / 4 - yoe / 100 + (MonthStart(month) + day - 1) < 146_463
  {
    assert 0 <= MonthStart(month) <= 337;
  }

  lemma EraFits(y: int)
    requires -YEAR_LIMIT - 1 <= y <= YEAR_LIMIT
    ensures var era := y / 400;
      Fits(y - 399) && Fits(era * 400) && 0 <= y - era * 400 < 400
      && I64_MIN + 719_468 <= era * 146_097 <= I64_MAX - 146_463
  {
  }

  /** Every intermediate of the unchecked part, in the source's order, really
      fits for the years it is used for. */
  lemma UncheckedArithmeticFits(d: Date)
    requires Valid(d) && -YEAR_LIMIT <= d.year <= YEAR_LIMIT
    ensures var y := if d.month <= 2 then d.year - 1 else d.year;
      var era := Quot(if y >= 0 then y else y - 399, 400);
      var yoe := y - era * 400;
      var doe := yoe * 365 + yoe / 4 - yoe / 100 + (MonthStart(d.month) + d.day - 1);
      && Fits(d.year - 1) && Fits(y - 399) && Fits(era * 400) && 0 <= yoe < 400 && 0 <= doe < 146_463
      && Fits(era * 146_097) && Fits(era * 146_097 + doe) && IsDay(d, era * 146_097 + doe - 719_468)
      && Fits(era * 146_097 + doe - 719_468)
  {
    var y := if d.month <= 2 then d.year - 1 else d.year;
    EraIsFloor(y);
    EraFits(y);
    DayOfEraFits(y - y / 400 * 400, d.month, d.day);
  }
}
