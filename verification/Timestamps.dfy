/** The timestamp parser of the daemon's configuration: exactly which texts it
    accepts, and what each of them is worth. */
module Timestamps {
  import opened Events
  import opened Text
  import opened CivilDates

  // ------------------------------------------------------------------ the parser

  /** Rust's `i64` parser: an optional sign, then digits, in range. */
  function ParseI64(s: string): Option<int> {
    if s == "" then None
    else if s[0] == '-' then
      if |s| > 1 && Digits(s[1..]) && 0 - Value(s[1..]) >= I64_MIN then Some(0 - Value(s[1..])) else None
    else
      var body := if s[0] == '+' then s[1..] else s;
      if body != "" && Digits(body) && Value(body) <= I64_MAX then Some(Value(body)) else None
  }

  /** Three separated integers, no more, no fewer. */
  function ParseTriple(s: string, sep: char): Option<(int, int, int)> {
    var parts := Split(s, sep);
    if |parts| != 3 then None
    else
      match (ParseI64(parts[0]), ParseI64(parts[1]), ParseI64(parts[2]))
      case (Some(a), Some(b), Some(c)) => Some((a, b, c))
      case _ => None
  }

  /** Nanoseconds of a fraction: right-padded to nine digits. */
  function ParseFraction(f: Option<string>): Option<int> {
    match f
    case None => Some(0)
    case Some(f) => if f == "" || |f| > 9 || !Digits(f) then None else ParseI64(f + Zeros(9 - |f|))
  }

  /** `Unchecked` when the source's unchecked date arithmetic would leave `i64`:
      what it then does depends on the build. */
  datatype Parsed = Rejected | Unchecked | Instant(nanos: Timestamp)

  datatype Clock = Clock(hour: int, minute: int, second: int)

  predicate ValidClock(c: Clock) {
    0 <= c.hour <= 23 && 0 <= c.minute <= 59 && 0 <= c.second <= 59
  }

  function SecondsOf(days: int, c: Clock): int {
    days * 86_400 + (c.hour * 3_600 + c.minute * 60 + c.second)
  }

  /** Checked: overflow rejects instead of wrapping. */
  function Combine(d: Date, c: Clock, nanos: int): Parsed {
    if !Valid(d) then Rejected
    else if !(-YEAR_LIMIT <= d.year <= YEAR_LIMIT) then Unchecked
    else
      var days := DaysFromCivil(d).value;
      var secs := SecondsOf(days, c);
      if !Fits(days * 86_400) || !Fits(secs) || !Fits(secs * 1_000_000_000) || !Fits(secs * 1_000_000_000 + nanos)
      then Rejected
      else Instant(secs * 1_000_000_000 + nanos)
  }

  /** Clock part: three fields and an optional fraction. */
  function ParseTime(time: string): Option<(Clock, int)> {
    match SplitOnce(time, '.')
    case Some((hms, f)) => ParseClock(hms, Some(f))
    case None => ParseClock(time, None)
  }

  function ParseClock(hms: string, f: Option<string>): Option<(Clock, int)> {
    match ParseTriple(hms, ':')
    case None => None
    case Some((h, m, s)) =>
      if !ValidClock(Clock(h, m, s)) then None
      else
        match ParseFraction(f)
        case None => None
        case Some(n) => Some((Clock(h, m, s), n))
  }

  function ParseParts(date: string, time: string): Parsed {
    match (ParseTriple(date, '-'), ParseTime(time))
    case (Some((y, m, d)), Some((clock, nanos))) => Combine(Date(y, m, d), clock, nanos)
    case _ => Rejected
  }

  function ParseRfc3339(s: string): Parsed {
    if s == "" || s[|s| - 1] != 'Z' then Rejected
    else
      match SplitOnce(s[..|s| - 1], 'T')
      case None => Rejected
      case Some((date, time)) => ParseParts(date, time)
  }

  // -------------------------------------------------------- texts and their worth

  /** A text cut into its fields, and back. */
  datatype Fields = Fields(y: string, m: string, d: string, hh: string, mm: string, ss: string, f: Option<string>)

  function DateText(x: Fields): string {
    x.y + ['-'] + (x.m + ['-'] + x.d)
  }

  function ClockText(x: Fields): string {
    x.hh + [':'] + (x.mm + [':'] + x.ss)
  }

  function TimeText(x: Fields): string {
    if x.f.Some? then ClockText(x) + ['.'] + x.f.value else ClockText(x)
  }

  function Layout(x: Fields): string {
    DateText(x) + ['T'] + TimeText(x) + "Z"
  }

  predicate Signed(t: string) {
    t != "" && (t[0] == '+' || t[0] == '-')
  }

  /** `t` is an optional sign and at least one digit, denoting `v`, in range. */
  predicate Numeral(t: string, v: int) {
    var digits := if Signed(t) then t[1..] else t;
    digits != "" && Digits(digits) && Fits(v) && v == if t[0] == '-' then 0 - Value(digits) else Value(digits)
  }

  /** The fields denote this date and clock. A date field cannot be negative: its
      minus sign would read as a separator. */
  predicate Spells(x: Fields, m: Moment) {
    && Numeral(x.y, m.date.year) && Numeral(x.m, m.date.month) && Numeral(x.d, m.date.day)
    && Numeral(x.hh, m.clock.hour) && Numeral(x.mm, m.clock.minute) && Numeral(x.ss, m.clock.second)
    && '-' !in x.y && '-' !in x.m && '-' !in x.d
  }

  /** No fraction, or one to nine digits. */
  predicate FractionOk(f: Option<string>) {
    f.Some? ==> 1 <= |f.value| <= 9 && Digits(f.value)
  }

  function NanosOf(f: Option<string>): int
    requires FractionOk(f)
  {
    if f.None? then 0 else Value(f.value) * Pow10(9 - |f.value|)
  }

  /** What a text denoting second number `secs` of the calendar is worth: its exact
      nanosecond count, unless a part is impossible or the count, or its
      whole-second part, leaves `i64`. */
  function Worth(m: Moment, secs: int, f: Option<string>): Parsed {
    if !ValidMoment(m) || !FractionOk(f) then Rejected
    else if !(-YEAR_LIMIT <= m.date.year <= YEAR_LIMIT) then Unchecked
    else if Fits(secs * 1_000_000_000) && Fits(secs * 1_000_000_000 + NanosOf(f))
    then Instant(secs * 1_000_000_000 + NanosOf(f))
    else Rejected
  }

  // ------------------------------------------------------------- counting seconds

  datatype Moment = Moment(date: Date, clock: Clock)

  predicate ValidMoment(m: Moment) {
    Valid(m.date) && ValidClock(m.clock)
  }

  /** One second later, by the rules of clock and calendar alone. */
  function NextSecond(m: Moment): Moment {
    if m.clock.second < 59 then m.(clock := m.clock.(second := m.clock.second + 1))
    else if m.clock.minute < 59 then m.(clock := Clock(m.clock.hour, m.clock.minute + 1, 0))
    else if m.clock.hour < 23 then m.(clock := Clock(m.clock.hour + 1, 0, 0))
    else Moment(Next(m.date), Clock(0, 0, 0))
  }

  function SecondsLater(m: Moment, n: nat): Moment
    decreases n
  {
    if n == 0 then m else NextSecond(SecondsLater(m, n - 1))
  }

  /** Midnight of 1970-01-01. */
  predicate IsEpoch(m: Moment) {
    && m.date.year == 1970 && m.date.month == 1 && m.date.day == 1
    && m.clock.hour == 0 && m.clock.minute == 0 && m.clock.second == 0
  }

  /** Counting second by second, `b` is `n` after `a`, or `-n` before. */
  predicate Apart(a: Moment, b: Moment, n: int) {
    if n >= 0 then SecondsLater(a, n) == b else SecondsLater(b, 0 - n) == a
  }

  /** Counting second by second, `m` is `n` away from the epoch. */
  ghost predicate IsSecond(m: Moment, n: int) {
    ValidMoment(m) && exists e :: IsEpoch(e) && Apart(e, m, n)
  }

  /** The closed form of the count. */
  function SecondNumber(m: Moment): int {
    SecondsOf(Day(m.date), m.clock)
  }

  lemma NextSecondIsOneMore(m: Moment)
    requires ValidMoment(m)
    ensures ValidMoment(NextSecond(m)) && SecondNumber(NextSecond(m)) == SecondNumber(m) + 1
  {
    if m.clock == Clock(23, 59, 59) {
      NextIsOneMore(m.date);
    }
  }

  predicate Numbered(m: Moment, n: int) {
    ValidMoment(m) && SecondNumber(m) == n
  }

  lemma EpochIsSecondZero(e: Moment)
    requires IsEpoch(e)
    ensures Numbered(e, 0)
  {
    EpochIsDayZero();
    IsDayIffClosedForm(Epoch, 0);
  }

  lemma ClockIsDetermined(days: int, c: Clock, days': int, c': Clock)
    requires ValidClock(c) && ValidClock(c') && SecondsOf(days, c) == SecondsOf(days', c')
    ensures days == days' && c == c'
  {
    var n, n' := c.hour * 3_600 + c.minute * 60 + c.second, c'.hour * 3_600 + c'.minute * 60 + c'.second;
    assert 0 <= n < 86_400 && 0 <= n' < 86_400;
    assert days == days';
    assert 0 <= c.minute * 60 + c.second < 3_600 && 0 <= c'.minute * 60 + c'.second < 3_600;
    assert c.hour == c'.hour;
  }

  lemma DayIsDetermined(a: Date, b: Date)
    requires Valid(a) && Valid(b) && Day(a) == Day(b)
    ensures a == b
  {
    if a != b {
      DistinctDatesAreOrdered(a, b);
      if Before(a, b) {
        ClosedFormIsMonotone(a, b);
      } else {
        ClosedFormIsMonotone(b, a);
      }
    }
  }

  lemma MomentIsDetermined(a: Moment, b: Moment)
    requires ValidMoment(a) && ValidMoment(b) && SecondNumber(a) == SecondNumber(b)
    ensures a == b
  {
    ClockIsDetermined(Day(a.date), a.clock, Day(b.date), b.clock);
    DayIsDetermined(a.date, b.date);
  }

  lemma {:induction false} SecondsAreCounted(m: Moment, x: int, n: nat)
    requires Numbered(m, x)
    ensures Numbered(SecondsLater(m, n), x + n)
  {
    if n > 0 {
      SecondsAreCounted(m, x, n - 1);
      NextSecondIsOneMore(SecondsLater(m, n - 1));
    }
  }

  /** Counting `n` seconds from `a` arrives at `b` exactly when their numbers are
      `n` apart. */
  lemma CountedIffApart(a: Moment, x: int, b: Moment, y: int, n: nat)
    requires Numbered(a, x) && Numbered(b, y)
    ensures SecondsLater(a, n) == b <==> y == x + n
  {
    SecondsAreCounted(a, x, n);
    SameNumberSameMoment(SecondsLater(a, n), x + n, b, y);
  }

  lemma SameNumberSameMoment(a: Moment, x: int, b: Moment, y: int)
    requires Numbered(a, x) && Numbered(b, y)
    ensures a == b <==> x == y
  {
    if x == y {
      MomentIsDetermined(a, b);
    }
  }

  lemma ApartIffNumbersAre(a: Moment, x: int, b: Moment, y: int, n: int)
    requires Numbered(a, x) && Numbered(b, y)
    ensures Apart(a, b, n) <==> y == x + n
  {
    if n >= 0 {
      CountedIffApart(a, x, b, y, n);
    } else {
      CountedIffApart(b, y, a, x, 0 - n);
    }
  }

  lemma ApartFromZero(e: Moment, m: Moment, n: int)
    requires ValidMoment(m) && Numbered(e, 0)
    ensures Apart(e, m, n) <==> SecondNumber(m) == n
  {
    ApartIffNumbersAre(e, 0, m, SecondNumber(m), n);
  }

  lemma ApartFromEpoch(e: Moment, m: Moment, n: int)
    requires ValidMoment(m) && IsEpoch(e)
    ensures Apart(e, m, n) <==> SecondNumber(m) == n
  {
    EpochIsSecondZero(e);
    ApartFromZero(e, m, n);
  }

  lemma ThereIsAnEpoch() returns (e: Moment)
    ensures IsEpoch(e)
  {
    e := Moment(Date(1970, 1, 1), Clock(0, 0, 0));
  }

  lemma IsSecondIfApart(m: Moment, k: int, n: int)
    requires ValidMoment(m) && forall e | IsEpoch(e) :: Apart(e, m, n) <==> k == n
    ensures IsSecond(m, n) <==> k == n
  {
    var e := ThereIsAnEpoch();
    assert IsEpoch(e);
  }

  lemma IsSecondIffClosedForm(m: Moment, n: int)
    requires ValidMoment(m)
    ensures IsSecond(m, n) <==> SecondNumber(m) == n
  {
    forall e | IsEpoch(e)
      ensures Apart(e, m, n) <==> SecondNumber(m) == n
    {
      ApartFromEpoch(e, m, n);
    }
    IsSecondIfApart(m, SecondNumber(m), n);
  }

  /** Each second later counts one more. */
  lemma LaterSecond(m: Moment, x: int, n: nat)
    requires IsSecond(m, x)
    ensures IsSecond(SecondsLater(m, n), x + n)
  {
    IsSecondIffClosedForm(m, x);
    SecondsAreCounted(m, x, n);
    IsSecondIffClosedForm(SecondsLater(m, n), x + n);
  }

  /** Every valid moment has exactly one number. */
  lemma EveryMomentIsCounted(m: Moment) returns (n: int)
    requires ValidMoment(m)
    ensures IsSecond(m, n) && forall k | IsSecond(m, k) :: k == n
  {
    n := SecondNumber(m);
    IsSecondIffClosedForm(m, n);
    forall k | IsSecond(m, k)
      ensures k == n
    {
      IsSecondIffClosedForm(m, k);
    }
  }

  /** A fraction is less than a second. */
  lemma FractionIsBelowOneSecond(f: Option<string>)
    requires FractionOk(f)
    ensures 0 <= NanosOf(f) < 1_000_000_000
  {
    if f.Some? {
      var padded := f.value + Zeros(9 - |f.value|);
      ShiftedValue(f.value, 9 - |f.value|);
      ValueBound(padded);
      Pow10Nine();
    }
  }

  // --------------------------------------------------------------------- numerals

  lemma ParsesIffNumeral(t: string, v: int)
    ensures ParseI64(t) == Some(v) <==> Numeral(t, v)
  {
  }

  lemma NumeralHasNo(t: string, v: int, c: char)
    requires Numeral(t, v) && !IsDigit(c) && c != '+' && c != '-'
    ensures c !in t
  {
    var digits := if Signed(t) then t[1..] else t;
    assert t == if Signed(t) then [t[0]] + digits else digits;
  }

  lemma Pow10Nine()
    ensures Pow10(9) == 1_000_000_000
  {
    assert Pow10(3) == 1000;
    assert Pow10(6) == 1000 * Pow10(3);
    assert Pow10(9) == 1000 * Pow10(6);
  }

  lemma FractionIsNanos(f: Option<string>)
    ensures ParseFraction(f) == if FractionOk(f) then Some(NanosOf(f)) else None
  {
    if f.Some? && FractionOk(f) {
      var padded := f.value + Zeros(9 - |f.value|);
      ShiftedValue(f.value, 9 - |f.value|);
      ValueBound(padded);
      Pow10Nine();
      ParsesIffNumeral(padded, Value(padded));
    }
  }

  lemma TripleParses(a: string, b: string, c: string, sep: char, x: int, y: int, z: int)
    requires sep !in a && sep !in b && sep !in c && Numeral(a, x) && Numeral(b, y) && Numeral(c, z)
    ensures ParseTriple(a + [sep] + (b + [sep] + c), sep) == Some((x, y, z))
  {
    SplitField(a, b + [sep] + c, sep);
    SplitField(b, c, sep);
    SplitCounts(c, sep);
    ParsesIffNumeral(a, x);
    ParsesIffNumeral(b, y);
    ParsesIffNumeral(c, z);
  }

  lemma ParsedTripleIsText(s: string, sep: char) returns (a: string, b: string, c: string)
    requires ParseTriple(s, sep).Some?
    ensures var t := ParseTriple(s, sep).value;
      && s == a + [sep] + (b + [sep] + c) && sep !in a && sep !in b && sep !in c
      && Numeral(a, t.0) && Numeral(b, t.1) && Numeral(c, t.2)
  {
    SplitThree(s, sep);
    var parts := Split(s, sep);
    a, b, c := parts[0], parts[1], parts[2];
    var t := ParseTriple(s, sep).value;
    ParsesIffNumeral(a, t.0);
    ParsesIffNumeral(b, t.1);
    ParsesIffNumeral(c, t.2);
  }

  // ------------------------------------------------------------- every text parses

  lemma CombineIsWorth(m: Moment, secs: int, f: Option<string>)
    requires ValidClock(m.clock) && FractionOk(f) && (ValidMoment(m) ==> IsSecond(m, secs))
    ensures Combine(m.date, m.clock, NanosOf(f)) == Worth(m, secs, f)
  {
    if ValidMoment(m) {
      IsSecondIffClosedForm(m, secs);
      IsDayIffClosedForm(m.date, Day(m.date));
      OnlyNanosOverflow(Day(m.date), m.clock);
    }
  }

  /** Whatever fits in nanoseconds fits in seconds, and in whole days of them. */
  lemma OnlyNanosOverflow(days: int, c: Clock)
    requires ValidClock(c)
    ensures Fits(SecondsOf(days, c) * 1_000_000_000) ==> Fits(SecondsOf(days, c)) && Fits(days * 86_400)
  {
    assert 0 <= SecondsOf(days, c) - days * 86_400 < 86_400;
  }

  lemma ClockParses(x: Fields, c: Clock)
    requires Numeral(x.hh, c.hour) && Numeral(x.mm, c.minute) && Numeral(x.ss, c.second)
    ensures ParseTriple(ClockText(x), ':') == Some((c.hour, c.minute, c.second)) && '.' !in ClockText(x)
  {
    NumeralHasNo(x.hh, c.hour, ':');
    NumeralHasNo(x.mm, c.minute, ':');
    NumeralHasNo(x.ss, c.second, ':');
    NumeralHasNo(x.hh, c.hour, '.');
    NumeralHasNo(x.mm, c.minute, '.');
    NumeralHasNo(x.ss, c.second, '.');
    TripleParses(x.hh, x.mm, x.ss, ':', c.hour, c.minute, c.second);
  }

  lemma TimeParses(x: Fields, c: Clock)
    requires Numeral(x.hh, c.hour) && Numeral(x.mm, c.minute) && Numeral(x.ss, c.second)
    ensures ParseTime(TimeText(x)) == if ValidClock(c) && FractionOk(x.f) then Some((c, NanosOf(x.f))) else None
  {
    ClockParses(x, c);
    FractionIsNanos(x.f);
    if x.f.Some? {
      SplitOnceField(ClockText(x), x.f.value, '.');
    } else {
      SplitOnceNowhere(ClockText(x), '.');
    }
  }

  lemma DateParses(x: Fields, d: Date)
    requires Numeral(x.y, d.year) && Numeral(x.m, d.month) && Numeral(x.d, d.day)
    requires '-' !in x.y && '-' !in x.m && '-' !in x.d
    ensures ParseTriple(DateText(x), '-') == Some((d.year, d.month, d.day)) && 'T' !in DateText(x)
  {
    NumeralHasNo(x.y, d.year, 'T');
    NumeralHasNo(x.m, d.month, 'T');
    NumeralHasNo(x.d, d.day, 'T');
    TripleParses(x.y, x.m, x.d, '-', d.year, d.month, d.day);
  }

  lemma LayoutParts(x: Fields)
    requires 'T' !in DateText(x)
    ensures ParseRfc3339(Layout(x)) == ParseParts(DateText(x), TimeText(x))
  {
    var s := Layout(x);
    assert s[..|s| - 1] == DateText(x) + ['T'] + TimeText(x) && s[|s| - 1] == 'Z';
    SplitOnceField(DateText(x), TimeText(x), 'T');
  }

  /** Every text whose fields denote a moment, whatever its fraction, is parsed to
      exactly what it is worth, by the number of seconds one counts to it. */
  lemma EveryTextIsParsedToItsWorth(x: Fields, m: Moment, secs: int)
    requires Spells(x, m) && (ValidMoment(m) ==> IsSecond(m, secs))
    ensures ParseRfc3339(Layout(x)) == Worth(m, secs, x.f)
  {
    DateParses(x, m.date);
    TimeParses(x, m.clock);
    LayoutParts(x);
    if ValidClock(m.clock) && FractionOk(x.f) {
      CombineIsWorth(m, secs, x.f);
    }
  }

  lemma ParsedValue(x: Fields, m: Moment, secs: int, a: Timestamp)
    requires Spells(x, m) && IsSecond(m, secs) && ParseRfc3339(Layout(x)) == Instant(a)
    ensures FractionOk(x.f) && a == secs * 1_000_000_000 + NanosOf(x.f)
  {
    EveryTextIsParsedToItsWorth(x, m, secs);
  }

  /** Two texts with the same fraction are parsed to values exactly as many
      billions apart as there are seconds between them. */
  lemma ParsedValuesKeepStep(x: Fields, m: Moment, i: int, a: Timestamp, x': Fields, m': Moment, j: int, b: Timestamp)
    requires Spells(x, m) && IsSecond(m, i) && ParseRfc3339(Layout(x)) == Instant(a)
    requires Spells(x', m') && IsSecond(m', j) && ParseRfc3339(Layout(x')) == Instant(b)
    requires x.f == x'.f
    ensures b - a == (j - i) * 1_000_000_000
  {
    ParsedValue(x, m, i, a);
    ParsedValue(x', m', j, b);
  }

  // ---------------------------------------------------------- and nothing else does

  lemma CutOnce(s: string, sep: char) returns (a: string, b: string)
    requires SplitOnce(s, sep).Some?
    ensures SplitOnce(s, sep) == Some((a, b)) && s == a + [sep] + b
  {
    SplitOnceSound(s, sep);
    a, b := SplitOnce(s, sep).value.0, SplitOnce(s, sep).value.1;
  }

  lemma StripLast(s: string)
    requires s != ""
    ensures s == s[..|s| - 1] + [s[|s| - 1]]
  {
  }

  lemma AcceptedIsCut(s: string) returns (date: string, time: string)
    requires ParseRfc3339(s) != Rejected
    ensures s == date + ['T'] + time + "Z" && ParseParts(date, time) == ParseRfc3339(s)
  {
    StripLast(s);
    date, time := CutOnce(s[..|s| - 1], 'T');
  }

  lemma AcceptedTimeIsText(time: string) returns (hh: string, mm: string, ss: string, f: Option<string>, c: Clock)
    requires ParseTime(time).Some?
    ensures Numeral(hh, c.hour) && Numeral(mm, c.minute) && Numeral(ss, c.second)
    ensures time == TimeText(Fields("", "", "", hh, mm, ss, f))
  {
    SplitOnceSound(time, '.');
    var hms;
    match SplitOnce(time, '.') {
      case Some((a, b)) => hms, f := a, Some(b);
      case None => hms, f := time, None;
    }
    hh, mm, ss := ParsedTripleIsText(hms, ':');
    var t := ParseTriple(hms, ':').value;
    c := Clock(t.0, t.1, t.2);
  }

  /** Only such texts are accepted: anything not rejected is laid out in fields
      that denote a moment. */
  lemma AcceptedTextIsLaidOut(s: string) returns (x: Fields, m: Moment)
    requires ParseRfc3339(s) != Rejected
    ensures s == Layout(x) && Spells(x, m)
  {
    var dateText, timeText := AcceptedIsCut(s);
    var y, mo, d := ParsedTripleIsText(dateText, '-');
    var t := ParseTriple(dateText, '-').value;
    var hh, mm, ss, f, c := AcceptedTimeIsText(timeText);
    x, m := Fields(y, mo, d, hh, mm, ss, f), Moment(Date(t.0, t.1, t.2), c);
  }

  lemma CountedIfValid(m: Moment) returns (n: int)
    ensures ValidMoment(m) ==> IsSecond(m, n)
  {
    n := SecondNumber(m);
    if ValidMoment(m) {
      IsSecondIffClosedForm(m, n);
    }
  }

  /** Whatever it is fed, a value is returned only for a text laid out as fields
      denoting a valid moment with at most nine fraction digits, and is the exact
      count of seconds and nanoseconds to it. */
  lemma ReturnedInstantIsExact(s: string, n: Timestamp) returns (x: Fields, m: Moment, secs: int)
    requires ParseRfc3339(s) == Instant(n)
    ensures s == Layout(x) && Spells(x, m) && FractionOk(x.f)
    ensures IsSecond(m, secs) && n == secs * 1_000_000_000 + NanosOf(x.f)
  {
    x, m := AcceptedTextIsLaidOut(s);
    secs := CountedIfValid(m);
    EveryTextIsParsedToItsWorth(x, m, secs);
  }

  // ------------------------------------------------------------- the standard's form

  /** How many digits each field is written in. */
  datatype Widths = Widths(year: nat, month: nat, day: nat, hour: nat, minute: nat, second: nat)

  predicate Fills(n: int, w: nat) {
    w >= 1 && 0 <= n < Pow10(w) && n <= I64_MAX
  }

  predicate Suits(w: Widths, m: Moment) {
    && Fills(m.date.year, w.year) && Fills(m.date.month, w.month) && Fills(m.date.day, w.day)
    && Fills(m.clock.hour, w.hour) && Fills(m.clock.minute, w.minute) && Fills(m.clock.second, w.second)
  }

  function Written(m: Moment, f: Option<string>, w: Widths): Fields
    requires Suits(w, m)
  {
    Fields(Padded(m.date.year, w.year), Padded(m.date.month, w.month), Padded(m.date.day, w.day),
           Padded(m.clock.hour, w.hour), Padded(m.clock.minute, w.minute), Padded(m.clock.second, w.second), f)
  }

  lemma PaddedNumeral(n: int, w: nat)
    requires Fills(n, w)
    ensures Numeral(Padded(n, w), n) && '-' !in Padded(n, w)
  {
    PaddedValue(n, w);
  }

  lemma WrittenSpells(m: Moment, f: Option<string>, w: Widths)
    requires Suits(w, m)
    ensures Spells(Written(m, f, w), m)
  {
    PaddedNumeral(m.date.year, w.year);
    PaddedNumeral(m.date.month, w.month);
    PaddedNumeral(m.date.day, w.day);
    PaddedNumeral(m.clock.hour, w.hour);
    PaddedNumeral(m.clock.minute, w.minute);
    PaddedNumeral(m.clock.second, w.second);
  }

  /** Fields padded to any width, or not at all. */
  lemma AnyWidthParsesExactly(m: Moment, secs: int, f: Option<string>, w: Widths)
    requires Suits(w, m) && (ValidMoment(m) ==> IsSecond(m, secs))
    ensures ParseRfc3339(Layout(Written(m, f, w))) == Worth(m, secs, f)
  {
    WrittenSpells(m, f, w);
    EveryTextIsParsedToItsWorth(Written(m, f, w), m, secs);
  }

  /** The documented widths. */
  const PADDED: Widths := Widths(4, 2, 2, 2, 2, 2)

  lemma PaddedSuits(m: Moment)
    requires 0 <= m.date.year <= 9999 && ValidMoment(m)
    ensures Suits(PADDED, m)
  {
    assert Pow10(2) == 100 && Pow10(4) == 100 * Pow10(2);
  }

  /** Every timestamp of RFC 3339 section 5.6 written with an upper-case `T` and
      `Z`, without a leap second and with a fraction of any length: it is parsed
      to its exact nanosecond count if and only if the fraction has at most nine
      digits and the count and its whole-second part fit; else it is rejected. */
  lemma Rfc3339ParsesExactly(m: Moment, secs: int, f: Option<string>)
    requires IsSecond(m, secs) && 0 <= m.date.year <= 9999
    requires f.Some? ==> f.value != "" && Digits(f.value)
    ensures Suits(PADDED, m)
    ensures ParseRfc3339(Layout(Written(m, f, PADDED))) ==
      if f.Some? && |f.value| > 9 then Rejected
      else
        var e := secs * 1_000_000_000 + NanosOf(f);
        if Fits(e) && Fits(e - NanosOf(f)) then Instant(e) else Rejected
  {
    PaddedSuits(m);
    AnyWidthParsesExactly(m, secs, f, PADDED);
  }

  /** The letters must be upper case: a text without a `T`, or not ending in `Z`,
      is rejected, lower-case forms of the standard included. */
  lemma LowerCaseIsRejected(s: string)
    requires 'T' !in s || s == "" || s[|s| - 1] != 'Z'
    ensures ParseRfc3339(s) == Rejected
  {
    if s != "" && 'T' !in s {
      SplitOnceNowhere(s[..|s| - 1], 'T');
    }
  }

  // --------------------------------------------------------------------- sample texts

  const NewYear2020: Moment := Moment(Date(2020, 1, 1), Clock(0, 0, 0))

  lemma OneDigitNumeral(t: string, n: int)
    requires 0 <= n <= 9 && t == [DigitChar(n)]
    ensures Numeral(t, n) && '-' !in t
  {
    assert t[..0] == "" && Value(t[..0]) == 0;
  }

  /** One more digit. */
  lemma DigitSnoc(t: string, v: int, n: int)
    requires Digits(t) && t != "" && Value(t) == v && 0 <= n <= 9 && v < 1000
    ensures Digits(t + [DigitChar(n)]) && Value(t + [DigitChar(n)]) == 10 * v + n
  {
    var u := t + [DigitChar(n)];
    assert u[..|u| - 1] == t;
  }

  lemma SampleYear(t: string)
    requires t == "2020"
    ensures Numeral(t, 2020) && '-' !in t
  {
    OneDigitNumeral("2", 2);
    DigitSnoc("2", 2, 0);
    assert "2" + [DigitChar(0)] == "20";
    DigitSnoc("20", 20, 2);
    assert "20" + [DigitChar(2)] == "202";
    DigitSnoc("202", 202, 0);
    assert "202" + [DigitChar(0)] == "2020";
  }

  lemma SampleSecond(m: Moment)
    requires m == NewYear2020
    ensures IsSecond(m, 1_577_836_800)
  {
    assert IsDay(m.date, 18_262);
    IsDayIffClosedForm(m.date, 18_262);
    IsSecondIffClosedForm(m, 1_577_836_800);
  }

  lemma SampleLayout(x: Fields)
    requires x == Fields("2020", "1", "1", "0", "0", "0", None)
    ensures Layout(x) == "2020-1-1T0:0:0Z"
  {
  }

  /** The first instant of 2020 written without padding: not in the form of the
      standard, and accepted. */
  lemma UnpaddedTextIsAccepted() returns (text: string)
    ensures text == "2020-1-1T0:0:0Z" && ParseRfc3339(text) == Instant(1_577_836_800_000_000_000)
  {
    var x := Fields("2020", "1", "1", "0", "0", "0", None);
    SampleYear(x.y);
    OneDigitNumeral(x.m, 1);
    OneDigitNumeral(x.hh, 0);
    SampleLayout(x);
    text := Layout(x);
    SampleSecond(NewYear2020);
    EveryTextIsParsedToItsWorth(x, NewYear2020, 1_577_836_800);
  }

  lemma TwoDigitNumeral(t: string, n: int)
    requires 0 <= n <= 9 && t == ['0', DigitChar(n)]
    ensures Numeral(t, n) && '-' !in t
  {
    assert t == ['0'] + [DigitChar(n)];
    OneDigitNumeral(['0'], 0);
    DigitSnoc(['0'], 0, n);
  }

  lemma LongSampleLayout(x: Fields)
    requires x == Fields("2020", "01", "01", "00", "00", "00", Some("0000000000"))
    ensures Layout(x) == "2020-01-01T00:00:00.0000000000Z"
  {
  }

  /** The same instant with ten fraction digits: in the form of the standard, and
      rejected. */
  lemma LongFractionIsRejected() returns (text: string)
    ensures text == "2020-01-01T00:00:00.0000000000Z" && ParseRfc3339(text) == Rejected
  {
    var x := Fields("2020", "01", "01", "00", "00", "00", Some("0000000000"));
    SampleYear(x.y);
    TwoDigitNumeral(x.m, 1);
    TwoDigitNumeral(x.hh, 0);
    LongSampleLayout(x);
    text := Layout(x);
    SampleSecond(NewYear2020);
    EveryTextIsParsedToItsWorth(x, NewYear2020, 1_577_836_800);
  }

  /** And with lower-case letters. */
  lemma LowerCaseTextIsRejected() returns (text: string)
    ensures text == "2020-01-01t00:00:00z" && ParseRfc3339(text) == Rejected
  {
    text := "2020-01-01t00:00:00z";
    LowerCaseIsRejected(text);
  }
}
