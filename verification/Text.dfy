/** String splitting and decimal numerals, as the parsers of this project use
    them. */
module Text {
  import opened Events

  // --------------------------------------------------------------- splitting

  /** The pieces between separators; always at least one. */
  function Split(s: string, sep: char): (parts: seq<string>)
    ensures |parts| >= 1
  {
    if s == "" then [""]
    else
      var rest := Split(s[1..], sep);
      if s[0] == sep then [""] + rest else [[s[0]] + rest[0]] + rest[1..]
  }

  function Occurrences(s: string, sep: char): nat {
    if s == "" then 0 else (if s[0] == sep then 1 else 0) + Occurrences(s[1..], sep)
  }

  lemma {:induction false} SplitCounts(s: string, sep: char)
    ensures |Split(s, sep)| == Occurrences(s, sep) + 1
    ensures Occurrences(s, sep) == 0 <==> sep !in s
    ensures Occurrences(s, sep) == 0 ==> Split(s, sep) == [s]
  {
    if s != "" {
      SplitCounts(s[1..], sep);
      assert s == [s[0]] + s[1..];
    }
  }

  lemma {:induction false} OccurrencesConcat(a: string, b: string, sep: char)
    ensures Occurrences(a + b, sep) == Occurrences(a, sep) + Occurrences(b, sep)
  {
    if a == "" {
      assert a + b == b;
    } else {
      assert (a + b)[1..] == a[1..] + b;
      OccurrencesConcat(a[1..], b, sep);
    }
  }

  /** A field without separators, then a separator, then the rest. */
  lemma {:induction false} SplitField(f: string, rest: string, sep: char)
    requires sep !in f
    ensures Split(f + [sep] + rest, sep) == [f] + Split(rest, sep)
  {
    var s := f + [sep] + rest;
    if f == "" {
      assert s == [sep] + rest && s[1..] == rest;
    } else {
      assert s[1..] == f[1..] + [sep] + rest;
      SplitField(f[1..], rest, sep);
      assert f == [f[0]] + f[1..];
    }
  }

  /** The first of several pieces, and the text the others come from. */
  lemma {:induction false} SplitHead(s: string, sep: char) returns (rest: string)
    requires |Split(s, sep)| > 1
    ensures var parts := Split(s, sep);
      sep !in parts[0] && s == parts[0] + [sep] + rest && Split(rest, sep) == parts[1..]
  {
    if s[0] == sep {
      rest := s[1..];
      assert s == [sep] + rest;
    } else {
      rest := SplitHead(s[1..], sep);
      assert s == [s[0]] + s[1..];
    }
  }

  /** A text of three pieces is those pieces joined. */
  lemma SplitThree(s: string, sep: char)
    requires |Split(s, sep)| == 3
    ensures var parts := Split(s, sep);
      && s == parts[0] + [sep] + (parts[1] + [sep] + parts[2])
      && sep !in parts[0] && sep !in parts[1] && sep !in parts[2]
  {
    var rest := SplitHead(s, sep);
    var last := SplitHead(rest, sep);
    SplitCounts(last, sep);
  }

  /** Before and after the first separator, if there is one. */
  function SplitOnce(s: string, sep: char): Option<(string, string)> {
    if s == "" then None
    else if s[0] == sep then Some(("", s[1..]))
    else
      match SplitOnce(s[1..], sep)
      case None => None
      case Some((a, b)) => Some(([s[0]] + a, b))
  }

  lemma {:induction false} SplitOnceSound(s: string, sep: char)
    ensures match SplitOnce(s, sep)
      case None => sep !in s
      case Some((a, b)) => s == a + [sep] + b && sep !in a
  {
    if s != "" && s[0] != sep {
      SplitOnceSound(s[1..], sep);
      assert s == [s[0]] + s[1..];
    }
  }

  lemma {:induction false} SplitOnceNowhere(s: string, sep: char)
    requires sep !in s
    ensures SplitOnce(s, sep).None?
  {
    if s != "" {
      SplitOnceNowhere(s[1..], sep);
    }
  }

  lemma {:induction false} SplitOnceField(a: string, b: string, sep: char)
    requires sep !in a
    ensures SplitOnce(a + [sep] + b, sep) == Some((a, b))
  {
    var s := a + [sep] + b;
    if a == "" {
      assert s == [sep] + b && s[1..] == b;
    } else {
      assert s[1..] == a[1..] + [sep] + b;
      SplitOnceField(a[1..], b, sep);
      assert a == [a[0]] + a[1..];
    }
  }

  // ---------------------------------------------------------------- numerals

  predicate IsDigit(c: char) {
    '0' <= c <= '9'
  }

  predicate Digits(s: string) {
    forall n | 0 <= n < |s| :: IsDigit(s[n])
  }

  function DigitValue(c: char): (v: int)
    requires IsDigit(c)
    ensures 0 <= v <= 9
  {
    (c as int) - ('0' as int)
  }

  function DigitChar(v: int): (c: char)
    requires 0 <= v <= 9
    ensures IsDigit(c) && DigitValue(c) == v
  {
    ('0' as int + v) as char
  }

  function Pow10(k: nat): (p: nat)
    ensures p >= 1
  {
    if k == 0 then 1 else 10 * Pow10(k - 1)
  }

  /** The number a digit string denotes; zero for the empty string. */
  function Value(s: string): (v: nat)
    requires Digits(s)
  {
    if s == "" then 0 else 10 * Value(s[..|s| - 1]) + DigitValue(s[|s| - 1])
  }

  lemma {:induction false} ValueBound(s: string)
    requires Digits(s)
    ensures Value(s) < Pow10(|s|)
  {
    if s != "" {
      ValueBound(s[..|s| - 1]);
    }
  }

  lemma {:induction false} ValueConcat(a: string, b: string)
    requires Digits(a) && Digits(b)
    ensures Digits(a + b) && Value(a + b) == Value(a) * Pow10(|b|) + Value(b)
    decreases |b|
  {
    if b == "" {
      assert a + b == a;
    } else {
      var front := b[..|b| - 1];
      ValueConcat(a, front);
      assert (a + b)[..|a + b| - 1] == a + front;
      TimesTen(Value(a), Pow10(|front|));
    }
  }

  lemma TimesTen(x: int, p: int)
    ensures x * (10 * p) == 10 * (x * p)
  {
  }

  /** `n` in exactly `k` digits, leading zeros included. */
  function Padded(n: nat, k: nat): (s: string)
    ensures |s| == k && Digits(s)
  {
    if k == 0 then "" else Padded(n / 10, k - 1) + [DigitChar(n % 10)]
  }

  lemma {:induction false} PaddedValue(n: nat, k: nat)
    requires n < Pow10(k)
    ensures Value(Padded(n, k)) == n
    decreases k
  {
    if k > 0 {
      PaddedValue(n / 10, k - 1);
      var s := Padded(n, k);
      assert s[..k - 1] == Padded(n / 10, k - 1);
    }
  }

  /** `n` without leading zeros. */
  function Decimal(n: nat): (s: string)
    ensures |s| >= 1 && Digits(s)
    decreases n
  {
    if n < 10 then [DigitChar(n)] else Decimal(n / 10) + [DigitChar(n % 10)]
  }

  lemma {:induction false} DecimalValue(n: nat)
    ensures Value(Decimal(n)) == n
    decreases n
  {
    var s := Decimal(n);
    if n < 10 {
      assert s[..0] == "";
    } else {
      DecimalValue(n / 10);
      assert s[..|s| - 1] == Decimal(n / 10);
    }
  }

  /** Decimal numerals of larger numbers are never shorter. */
  lemma {:induction false} DecimalLength(m: nat, n: nat)
    requires m <= n
    ensures |Decimal(m)| <= |Decimal(n)|
    decreases n
  {
    if n >= 10 && m >= 10 {
      DecimalLength(m / 10, n / 10);
    }
  }

  lemma DecimalInjective(m: nat, n: nat)
    requires Decimal(m) == Decimal(n)
    ensures m == n
  {
    DecimalValue(m);
    DecimalValue(n);
  }

  function Zeros(n: nat): (s: string)
    ensures |s| == n && Digits(s)
  {
    if n == 0 then "" else Zeros(n - 1) + "0"
  }

  lemma {:induction false} ZerosValue(n: nat)
    ensures Value(Zeros(n)) == 0
  {
    if n > 0 {
      ZerosValue(n - 1);
      assert Zeros(n)[..n - 1] == Zeros(n - 1);
    }
  }

  lemma ShiftedValue(s: string, k: nat)
    requires Digits(s)
    ensures Digits(s + Zeros(k)) && Value(s + Zeros(k)) == Value(s) * Pow10(k)
  {
    ValueConcat(s, Zeros(k));
    ZerosValue(k);
  }

  /** One more digit behind zeros, or behind a shortest numeral. */
  lemma NumeralSnoc(front: string, k: nat, last: char) returns (k': nat)
    requires Digits(front) && front == Zeros(k) + Decimal(Value(front)) && IsDigit(last)
    ensures Digits(front + [last]) && Value(front + [last]) == 10 * Value(front) + DigitValue(last)
    ensures front + [last] == Zeros(k') + Decimal(Value(front + [last]))
  {
    assert (front + [last])[..|front|] == front;
    if Value(front) == 0 {
      k' := k + 1;
      assert front == Zeros(k + 1);
    } else {
      k' := k;
      ConcatAssoc(Zeros(k), Decimal(Value(front)), [last]);
    }
  }

  /** Every numeral is zeros followed by the shortest numeral of its value. */
  lemma {:induction false} NumeralIsZerosThenDecimal(s: string) returns (k: nat)
    requires s != "" && Digits(s)
    ensures s == Zeros(k) + Decimal(Value(s))
  {
    var front, last := s[..|s| - 1], s[|s| - 1];
    assert s == front + [last];
    if front == "" {
      assert Value(front) == 0;
      k := 0;
      assert s == "" + [last];
    } else {
      k := NumeralIsZerosThenDecimal(front);
      k := NumeralSnoc(front, k, last);
    }
  }

  lemma AfterLastCut(a: string, b: string, c: char, k: nat)
    requires c !in b && |a| < k < |a + [c] + b|
    ensures (a + [c] + b)[k] != c
  {
    assert (a + [c] + b)[k] == b[k - |a| - 1];
  }

  /** A text is cut at its last `c` in only one way. */
  lemma LastCutIsUnique(a: string, b: string, a': string, b': string, c: char)
    requires c !in b && c !in b' && a + [c] + b == a' + [c] + b'
    ensures a == a' && b == b'
  {
    var s := a + [c] + b;
    forall k | |a| < k < |s| ensures s[k] != c {
      AfterLastCut(a, b, c, k);
    }
    forall k | |a'| < k < |s| ensures s[k] != c {
      AfterLastCut(a', b', c, k);
    }
    assert s[|a|] == c && (a' + [c] + b')[|a'|] == c;
    assert a == s[..|a|] && a' == (a' + [c] + b')[..|a|];
    assert b == s[|a| + 1..] && b' == (a' + [c] + b')[|a| + 1..];
  }
}
