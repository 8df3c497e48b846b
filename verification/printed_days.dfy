/** Days as the date picker prints them, and the order of the strings against the order of the days. */
module PrintedDays {
  import opened Calendar
  import opened Decimal

  /** String order by character codes. */
  predicate StrLess(a: string, b: string) {
    b != "" && (a == "" || a[0] < b[0] || (a[0] == b[0] && StrLess(a[1..], b[1..])))
  }

  /** A number padded to two digits. */
  function Pad2(n: nat): string {
    if n < 10 then "0" + Digits(n) else Digits(n)
  }

  function YearText(year: int): string {
    if year < 0 then "-" + Digits(-year) else Digits(year)
  }

  function MonthText(year: int, month: nat): string {
    YearText(year) + ("-" + Pad2(month + 1))
  }

  function Fmt(d: Date): string {
    YearText(d.year) + ("-" + (Pad2(d.month + 1) + ("-" + Pad2(d.day))))
  }

  lemma {:induction false} StrLessOfConcat(a: string, b: string, x: string, y: string)
    requires |a| == |b|
    ensures StrLess(a + x, b + y) <==> StrLess(a, b) || (a == b && StrLess(x, y))
  {
    if a == "" {
      assert a + x == x && b + y == y;
    } else {
      assert (a + x)[1..] == a[1..] + x && (b + y)[1..] == b[1..] + y;
      StrLessOfConcat(a[1..], b[1..], x, y);
    }
  }

  lemma {:induction false} StrLessIsStrict(a: string, b: string)
    ensures !(StrLess(a, b) && StrLess(b, a)) && !StrLess(a, a)
    ensures |a| == |b| && !StrLess(a, b) && !StrLess(b, a) ==> a == b
  {
    if a != "" && b != "" {
      StrLessIsStrict(a[1..], b[1..]);
    }
    if a != "" {
      StrLessIsStrict(a[1..], a[1..]);
    }
  }

  /** For numbers of the same width, string order is numeric order. */
  lemma {:induction false} DigitsOrder(m: nat, n: nat)
    requires |Digits(m)| == |Digits(n)|
    ensures StrLess(Digits(m), Digits(n)) <==> m < n
  {
    if m < 10 && n < 10 {
      assert Digits(m)[1..] == "" && Digits(n)[1..] == "";
    } else if m >= 10 && n >= 10 {
      DigitsOrder(m / 10, n / 10);
      StrLessOfConcat(Digits(m / 10), Digits(n / 10), [Digit(m % 10)], [Digit(n % 10)]);
      assert [Digit(m % 10)][1..] == "" && [Digit(n % 10)][1..] == "";
      if Digits(m / 10) == Digits(n / 10) {
        DigitsInjective(m / 10, n / 10);
      }
    } else {
      WidthGrows(m, n);
    }
  }

  lemma WidthGrows(m: nat, n: nat)
    requires |Digits(m)| == |Digits(n)|
    ensures m < 10 <==> n < 10
  {
  }

  lemma PadOrder(m: nat, n: nat)
    requires m < 100 && n < 100
    ensures |Pad2(m)| == 2 && |Pad2(n)| == 2
    ensures StrLess(Pad2(m), Pad2(n)) <==> m < n
    ensures Pad2(m) == Pad2(n) <==> m == n
  {
    PadIsTwoDigits(m);
    PadIsTwoDigits(n);
    StrLessOfConcat([Digit(m / 10)], [Digit(n / 10)], [Digit(m % 10)], [Digit(n % 10)]);
    assert forall c: char, e: char :: [c][1..] == "" && [e][1..] == "";
  }

  lemma PadIsTwoDigits(n: nat)
    requires n < 100
    ensures Pad2(n) == [Digit(n / 10)] + [Digit(n % 10)]
  {
    assert Digits(n / 10) == [Digit(n / 10)];
  }

  /** Fields joined by a dash compare field by field. */
  lemma ThenDash(a: string, b: string, x: string, y: string)
    requires |a| == |b|
    ensures StrLess(a + ("-" + x), b + ("-" + y)) <==> StrLess(a, b) || (a == b && StrLess(x, y))
  {
    StrLessOfConcat(a, b, "-" + x, "-" + y);
    assert ("-" + x)[1..] == x && ("-" + y)[1..] == y;
  }

  // ----- numbers of different width

  /** The number that the first `k` digits make. */
  function Head(n: nat, k: nat): nat {
    if |Digits(n)| <= k || n < 10 then n else Head(n / 10, k)
  }

  lemma {:induction false} HeadIsPrefix(n: nat, k: nat)
    requires 1 <= k <= |Digits(n)|
    ensures Digits(Head(n, k)) == Digits(n)[..k]
  {
    if k < |Digits(n)| {
      HeadIsPrefix(n / 10, k);
      assert Digits(n)[..k] == Digits(n / 10)[..k];
    } else {
      assert Digits(n)[..k] == Digits(n);
    }
  }

  lemma {:induction false} WidthAscends(m: nat, n: nat)
    requires m <= n
    ensures |Digits(m)| <= |Digits(n)|
  {
    if m >= 10 {
      WidthAscends(m / 10, n / 10);
    }
  }

  /** How two different numbers compare as text when a dash follows: by value after cutting to equal width. */
  predicate DigitsBefore(m: nat, n: nat) {
    if |Digits(m)| <= |Digits(n)| then m <= Head(n, |Digits(m)|) else Head(m, |Digits(n)|) < n
  }

  lemma DigitsThenDash(m: nat, n: nat, x: string, y: string)
    requires m != n
    ensures StrLess(Digits(m) + ("-" + x), Digits(n) + ("-" + y)) <==> DigitsBefore(m, n)
  {
    if |Digits(m)| <= |Digits(n)| {
      ShorterThenDash(m, n, x, y);
    } else {
      LongerThenDash(m, n, x, y);
    }
  }

  lemma ShorterThenDash(m: nat, n: nat, x: string, y: string)
    requires m != n && |Digits(m)| <= |Digits(n)|
    ensures StrLess(Digits(m) + ("-" + x), Digits(n) + ("-" + y)) <==> m <= Head(n, |Digits(m)|)
  {
    hide Digits;
    var k := |Digits(m)|;
    var head, rest := Head(n, k), Digits(n)[k..] + ("-" + y);
    HeadIsPrefix(n, k);
    DigitsOrder(m, head);
    if Digits(m) == Digits(head) {
      DigitsInjective(m, head);
    }
    assert Digits(n) + ("-" + y) == Digits(head) + rest;
    StrLessOfConcat(Digits(m), Digits(head), "-" + x, rest);
    if k < |Digits(n)| {
      assert rest[0] == Digits(n)[k] && IsDigit(rest[0]);
    } else {
      assert Digits(n)[..k] == Digits(n);
      DigitsInjective(n, head);
    }
  }

  lemma LongerThenDash(m: nat, n: nat, x: string, y: string)
    requires |Digits(m)| > |Digits(n)|
    ensures StrLess(Digits(m) + ("-" + x), Digits(n) + ("-" + y)) <==> Head(m, |Digits(n)|) < n
  {
    hide Digits;
    var k := |Digits(n)|;
    var head, rest := Head(m, k), Digits(m)[k..] + ("-" + x);
    HeadIsPrefix(m, k);
    DigitsOrder(head, n);
    assert Digits(m) + ("-" + x) == Digits(head) + rest;
    StrLessOfConcat(Digits(head), Digits(n), rest, "-" + y);
    assert rest[0] == Digits(m)[k] && IsDigit(rest[0]);
  }

  // ----- years

  /** How two different years compare as text when a dash follows. */
  predicate YearBefore(y: int, z: int) {
    if y < 0 && z < 0 then DigitsBefore(-y, -z)
    else y < 0 || (z >= 0 && DigitsBefore(y, z))
  }

  lemma YearThenDash(y: int, z: int, x: string, u: string)
    requires y != z
    ensures StrLess(YearText(y) + ("-" + x), YearText(z) + ("-" + u)) <==> YearBefore(y, z)
  {
    var m, n := if y < 0 then -y else y, if z < 0 then -z else z;
    hide Digits;
    if y < 0 && z < 0 {
      DigitsThenDash(m, n, x, u);
      StrLessOfConcat("-", "-", Digits(m) + ("-" + x), Digits(n) + ("-" + u));
      assert "-" + Digits(m) + ("-" + x) == "-" + (Digits(m) + ("-" + x));
      assert "-" + Digits(n) + ("-" + u) == "-" + (Digits(n) + ("-" + u));
      StrLessIsStrict("-", "-");
    } else if y >= 0 && z >= 0 {
      DigitsThenDash(m, n, x, u);
    } else {
      assert IsDigit(Digits(m)[0]) && IsDigit(Digits(n)[0]);
    }
  }

  /**
   * When an earlier year also comes first as text: it is not above the leading digits of a later
   * one, and of two years before the year 0 the leading digits of the earlier are below the later.
   */
  predicate PrintsInOrder(lo: int, hi: int) {
    if hi < 0 && lo < 0 then Head(-lo, |Digits(-hi)|) < -hi
    else lo < 0 || (hi >= 0 && lo <= Head(hi, |Digits(lo)|))
  }

  lemma YearsInOrder(lo: int, hi: int)
    requires lo < hi
    ensures YearBefore(lo, hi) <==> PrintsInOrder(lo, hi)
    ensures YearBefore(hi, lo) <==> !YearBefore(lo, hi)
  {
    if lo >= 0 {
      WidthAscends(lo, hi);
    } else if hi < 0 {
      WidthAscends(-hi, -lo);
    }
    hide Digits;
  }

  predicate InRange(d: Date) {
    IsDate(d) && 1000 <= d.year <= 9999
  }

  lemma FourDigits(n: nat)
    requires 1000 <= n <= 9999
    ensures |Digits(n)| == 4
  {
    assert |Digits(n / 1000)| == 1;
    assert |Digits(n / 100)| == 2;
    assert |Digits(n / 10)| == 3;
  }

  lemma PadReadsBack(n: nat)
    requires n < 100
    ensures |Pad2(n)| == 2 && (forall i | 0 <= i < 2 :: IsDigit(Pad2(n)[i])) && ValueOf(Pad2(n)) == n
  {
    PadIsTwoDigits(n);
    DigitsAreTheNumber(n / 10);
    var s := Pad2(n);
    assert s[..1] == Digits(n / 10) && s[1] == Digit(n % 10);
  }

  /** A day prints as year, month from 1 and day, of four, two and two digits. */
  lemma FmtReadsBack(d: Date)
    requires InRange(d)
    ensures var s := Fmt(d);
            && |s| == 10 && s[4] == '-' && s[7] == '-'
            && (forall i | 0 <= i < 10 && i != 4 && i != 7 :: IsDigit(s[i]))
            && ValueOf(s[..4]) == d.year && ValueOf(s[5..7]) == d.month + 1 && ValueOf(s[8..]) == d.day
  {
    FourDigits(d.year);
    DigitsAreTheNumber(d.year);
    PadReadsBack(d.month + 1);
    PadReadsBack(d.day);
    hide Digits, Pad2, ValueOf;
    var s, y, m, n := Fmt(d), Digits(d.year), Pad2(d.month + 1), Pad2(d.day);
    assert s[..4] == y && s[5..7] == m && s[8..] == n;
    assert forall i | 0 <= i < 4 :: s[i] == y[i];
    assert s[5] == m[0] && s[6] == m[1] && s[8] == n[0] && s[9] == n[1];
  }

  lemma SameWidthInOrder(lo: int, hi: int)
    requires 1000 <= lo <= hi <= 9999
    ensures PrintsInOrder(lo, hi)
  {
    FourDigits(lo);
    FourDigits(hi);
    hide Digits;
  }

  // ----- days

  lemma FmtFieldOrder(a: Date, b: Date)
    requires IsDate(a) && IsDate(b)
    ensures StrLess(Fmt(a), Fmt(b)) <==> if a.year == b.year then DateLess(a, b) else YearBefore(a.year, b.year)
  {
    hide Digits, Pad2, StrLess, YearText, YearBefore;
    var x, y := Pad2(a.month + 1) + ("-" + Pad2(a.day)), Pad2(b.month + 1) + ("-" + Pad2(b.day));
    if a.year == b.year {
      PadOrder(a.month + 1, b.month + 1);
      PadOrder(a.day, b.day);
      ThenDash(Pad2(a.month + 1), Pad2(b.month + 1), Pad2(a.day), Pad2(b.day));
      StrLessIsStrict(YearText(a.year), YearText(b.year));
      ThenDash(YearText(a.year), YearText(b.year), x, y);
    } else {
      YearThenDash(a.year, b.year, x, y);
    }
  }

  /** For any two days: their strings compare as the days do exactly when their years print in order. */
  lemma FmtOrderIff(a: Date, b: Date)
    requires IsDate(a) && IsDate(b) && a.year <= b.year
    ensures (StrLess(Fmt(a), Fmt(b)) <==> DayNumber(a) < DayNumber(b)) <==>
        a.year == b.year || PrintsInOrder(a.year, b.year)
    ensures (StrLess(Fmt(b), Fmt(a)) <==> DayNumber(b) < DayNumber(a)) <==>
        a.year == b.year || PrintsInOrder(a.year, b.year)
  {
    hide Fmt, YearBefore, PrintsInOrder, DayNumber;
    FmtFieldOrder(a, b);
    FmtFieldOrder(b, a);
    DateLessIsEarlier(a, b);
    DateLessIsEarlier(b, a);
    if a.year < b.year {
      YearsInOrder(a.year, b.year);
    }
  }

  /** For years of four digits the order of printed days is chronological order. */
  lemma FmtOrder(a: Date, b: Date)
    requires InRange(a) && InRange(b)
    ensures StrLess(Fmt(a), Fmt(b)) <==> DayNumber(a) < DayNumber(b)
    ensures Fmt(a) == Fmt(b) <==> a == b
  {
    hide Fmt, PrintsInOrder, DayNumber;
    var lo, hi := if a.year <= b.year then a else b, if a.year <= b.year then b else a;
    SameWidthInOrder(lo.year, hi.year);
    FmtOrderIff(lo, hi);
    DateLessIsEarlier(a, b);
    DateLessIsEarlier(b, a);
    StrLessIsStrict(Fmt(a), Fmt(b));
  }

  // ----- months

  lemma MonthTextOfToday(today: Date)
    requires InRange(today)
    ensures Fmt(today)[..7] == MonthText(today.year, today.month)
  {
    FourDigits(today.year);
    PadOrder(today.month + 1, today.month + 1);
    var rest := "-" + Pad2(today.day);
    assert Fmt(today) == MonthText(today.year, today.month) + rest;
    assert |MonthText(today.year, today.month)| == 7;
  }

  /** How a printed month compares with the month in today's string, for every year. */
  lemma MonthOrderOf(year: int, month: nat, today: Date)
    requires InRange(today) && month < 12
    ensures StrLess(MonthText(year, month), Fmt(today)[..7])
            <==> if year == today.year then month < today.month else YearBefore(year, today.year)
  {
    MonthTextOfToday(today);
    hide Digits, Pad2, StrLess, YearText, YearBefore, Fmt;
    if year == today.year {
      PadOrder(month + 1, today.month + 1);
      StrLessIsStrict(YearText(year), YearText(today.year));
      ThenDash(YearText(year), YearText(today.year), Pad2(month + 1), Pad2(today.month + 1));
    } else {
      YearThenDash(year, today.year, Pad2(month + 1), Pad2(today.month + 1));
    }
  }

  /** The test by which the picker decides that the month shown is not before today's. */
  predicate AtLastMonth(year: int, month: nat, today: Date)
    requires |Fmt(today)| >= 7
  {
    !StrLess(MonthText(year, month), Fmt(today)[..7])
  }

  lemma TodayIsLong(today: Date)
    requires IsDate(today) && today.year >= 1000
    ensures |Fmt(today)| >= 7 && |MonthText(today.year, today.month)| >= 7
    ensures Fmt(today)[..7] == MonthText(today.year, today.month)[..7]
  {
    FourDigits(1000);
    WidthAscends(1000, today.year);
    PadOrder(today.month + 1, today.month + 1);
    assert Fmt(today) == MonthText(today.year, today.month) + ("-" + Pad2(today.day));
  }

  /** For a month that is not after today's, the test is right exactly when the years print in order. */
  lemma AtLastMonthIsRightIff(year: int, month: nat, today: Date)
    requires InRange(today) && month < 12 && (year < today.year || (year == today.year && month <= today.month))
    ensures |Fmt(today)| >= 7
    ensures (AtLastMonth(year, month, today) <==> year == today.year && month == today.month)
            <==> year == today.year || PrintsInOrder(year, today.year)
  {
    TodayIsLong(today);
    MonthOrderOf(year, month, today);
    hide Digits, Fmt, StrLess, MonthText;
    if year < today.year {
      YearsInOrder(year, today.year);
    }
  }

  /**
   * Below the year 1000: as text the month comes before today's exactly if its year is not above the
   * first digits of today's.
   */
  lemma MonthOrderBelow1000(year: nat, month: nat, today: Date)
    requires InRange(today) && month < 12 && year < 1000
    ensures |Fmt(today)| >= 7
    ensures StrLess(MonthText(year, month), Fmt(today)[..7]) <==> year <= Head(today.year, |Digits(year)|)
  {
    TodayIsLong(today);
    MonthOrderOf(year, month, today);
    WidthAscends(year, today.year);
    hide Digits, Fmt, StrLess, MonthText;
  }

  /** For years of four digits the comparison of printed months is chronological. */
  lemma MonthOrder(year: nat, month: nat, today: Date)
    requires InRange(today) && 1000 <= year <= 9999 && month < 12
    ensures |Fmt(today)| >= 7
    ensures StrLess(MonthText(year, month), Fmt(today)[..7])
            <==> year < today.year || (year == today.year && month < today.month)
  {
    TodayIsLong(today);
    MonthOrderOf(year, month, today);
    hide Digits, Fmt, StrLess, MonthText;
    if year < today.year {
      SameWidthInOrder(year, today.year);
      YearsInOrder(year, today.year);
    } else if year > today.year {
      SameWidthInOrder(today.year, year);
      YearsInOrder(today.year, year);
    }
  }

  /** In 2024, the year 202 still compares as earlier, and the year 203 does not. */
  lemma MonthOrderExample(today: Date)
    requires InRange(today) && today.year == 2024
    ensures |Fmt(today)| >= 7
    ensures StrLess(MonthText(202, 0), Fmt(today)[..7]) && !StrLess(MonthText(203, 0), Fmt(today)[..7])
  {
    MonthOrderBelow1000(202, 0, today);
    MonthOrderBelow1000(203, 0, today);
    assert |Digits(2)| == 1 && |Digits(20)| == 2 && |Digits(202)| == 3 && |Digits(203)| == 3 && |Digits(2024)| == 4;
    assert Head(2024, 3) == Head(202, 3) == 202;
  }
}
