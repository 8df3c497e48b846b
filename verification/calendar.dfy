/** Civil dates as the date picker uses them: grids, printed days, and their order. */
module Calendar {
  import opened Text

  /** A day; months count from 0 as in the runtime. */
  datatype Date = Date(year: int, month: nat, day: nat)

  predicate IsLeap(year: int) {
    year % 4 == 0 && (year % 100 != 0 || year % 400 == 0)
  }

  function DaysInMonth(year: int, month: nat): (n: nat)
    ensures 28 <= n <= 31
  {
    if month == 1 then (if IsLeap(year) then 29 else 28)
    else if month == 3 || month == 5 || month == 8 || month == 10 then 30 else 31
  }

  predicate IsDate(d: Date) {
    d.month < 12 && 1 <= d.day <= DaysInMonth(d.year, d.month)
  }

  /** Days from the epoch to the first day of a year. */
  function DaysBeforeYear(year: int): int {
    365 * (year - 1970) + (year - 1969) / 4 - (year - 1901) / 100 + (year - 1601) / 400
  }

  function DaysBeforeMonth(year: int, month: nat): nat {
    if month == 0 then 0 else DaysBeforeMonth(year, month - 1) + DaysInMonth(year, month - 1)
  }

  function DayNumber(d: Date): int {
    DaysBeforeYear(d.year) + DaysBeforeMonth(d.year, d.month) + d.day - 1
  }

  /** `(getDay() + 6) % 7`: Monday is 0. The epoch was a Thursday. */
  function WeekdayColumn(d: Date): (c: nat)
    ensures c < 7
  {
    (DayNumber(d) + 3) % 7
  }

  predicate DateLess(a: Date, b: Date) {
    a.year < b.year || (a.year == b.year && (a.month < b.month || (a.month == b.month && a.day < b.day)))
  }

  lemma YearLength(year: int)
    ensures DaysBeforeYear(year + 1) == DaysBeforeYear(year) + (if IsLeap(year) then 366 else 365)
    ensures DaysBeforeMonth(year, 12) == if IsLeap(year) then 366 else 365
  {
    MonthsAddUp(year);
    LeapDays(year);
  }

  lemma MonthsAddUp(year: int)
    ensures DaysBeforeMonth(year, 12) == if IsLeap(year) then 366 else 365
  {
    hide IsLeap;
    var march := 31 + DaysInMonth(year, 1);
    assert DaysBeforeMonth(year, 1) == 31;
    assert DaysBeforeMonth(year, 2) == march && DaysBeforeMonth(year, 3) == march + 31;
    assert DaysBeforeMonth(year, 4) == march + 61 && DaysBeforeMonth(year, 5) == march + 92;
    assert DaysBeforeMonth(year, 6) == march + 122 && DaysBeforeMonth(year, 7) == march + 153;
    assert DaysBeforeMonth(year, 8) == march + 184 && DaysBeforeMonth(year, 9) == march + 214;
    assert DaysBeforeMonth(year, 10) == march + 245 && DaysBeforeMonth(year, 11) == march + 275;
  }

  lemma LeapDays(year: int)
    ensures DaysBeforeYear(year + 1) == DaysBeforeYear(year) + (if IsLeap(year) then 366 else 365)
  {
    FourYears(year);
    HundredYears(year);
    FourHundredYears(year);
    LeapNesting(year);
    hide IsLeap;
    assert year + 1 - 1969 == year - 1968 && year + 1 - 1901 == year - 1900 && year + 1 - 1601 == year - 1600;
  }

  /** Which of the three rules apply, as the sum of their corrections. */
  lemma LeapNesting(year: int)
    ensures (if year % 4 == 0 then 1 else 0) - (if year % 100 == 0 then 1 else 0) + (if year % 400 == 0 then 1 else 0)
         == if IsLeap(year) then 1 else 0
  {
    assert year == 4 * (25 * (year / 100)) + year % 100;
    assert year == 100 * (4 * (year / 400)) + year % 400;
  }

  lemma FourYears(year: int)
    ensures (year - 1968) / 4 - (year - 1969) / 4 == if year % 4 == 0 then 1 else 0
  {
    var q := (year - 1969) / 4;
    assert year == 4 * (q + 492) + 1 + (year - 1969) % 4;
  }

  lemma HundredYears(year: int)
    ensures (year - 1900) / 100 - (year - 1901) / 100 == if year % 100 == 0 then 1 else 0
  {
    var q := (year - 1901) / 100;
    assert year == 100 * (q + 19) + 1 + (year - 1901) % 100;
  }

  lemma FourHundredYears(year: int)
    ensures (year - 1600) / 400 - (year - 1601) / 400 == if year % 400 == 0 then 1 else 0
  {
    var q := (year - 1601) / 400;
    assert year == 400 * (q + 4) + 1 + (year - 1601) % 400;
  }

  /** The day after a date. */
  function NextDay(d: Date): Date {
    if d.day < DaysInMonth(d.year, d.month) then d.(day := d.day + 1)
    else if d.month < 11 then Date(d.year, d.month + 1, 1)
    else Date(d.year + 1, 0, 1)
  }

  /** Day numbers count days, across the ends of months and years. */
  lemma NextDayIsNext(d: Date)
    requires IsDate(d)
    ensures IsDate(NextDay(d)) && DayNumber(NextDay(d)) == DayNumber(d) + 1
  {
    YearLength(d.year);
  }

  lemma {:induction false} YearsAscend(x: int, y: int)
    requires x <= y
    ensures DaysBeforeYear(x) + 365 * (y - x) <= DaysBeforeYear(y)
    decreases y - x
  {
    if x < y {
      YearLength(y - 1);
      YearsAscend(x, y - 1);
    }
  }

  lemma {:induction false} MonthsAscend(year: int, x: nat, y: nat)
    requires x <= y
    ensures DaysBeforeMonth(year, x) <= DaysBeforeMonth(year, y)
    ensures x < y ==> DaysBeforeMonth(year, x) + DaysInMonth(year, x) <= DaysBeforeMonth(year, y)
    decreases y - x
  {
    if x < y {
      MonthsAscend(year, x, y - 1);
    }
  }

  lemma DayOfYear(d: Date)
    requires IsDate(d)
    ensures DaysBeforeYear(d.year) <= DayNumber(d) < DaysBeforeYear(d.year + 1)
  {
    YearLength(d.year);
    MonthsAscend(d.year, d.month + 1, 12);
  }

  lemma EarlierIsSmaller(a: Date, b: Date)
    requires IsDate(a) && IsDate(b) && DateLess(a, b)
    ensures DayNumber(a) < DayNumber(b)
  {
    if a.year < b.year {
      DayOfYear(a);
      DayOfYear(b);
      YearsAscend(a.year + 1, b.year);
    } else if a.month < b.month {
      MonthsAscend(a.year, a.month, b.month);
    }
  }

  /** Field order is the order of day numbers. */
  lemma DateLessIsEarlier(a: Date, b: Date)
    requires IsDate(a) && IsDate(b)
    ensures DateLess(a, b) <==> DayNumber(a) < DayNumber(b)
  {
    if DateLess(a, b) {
      EarlierIsSmaller(a, b);
    } else if DateLess(b, a) {
      EarlierIsSmaller(b, a);
    }
  }

  /** The lengths of the months, January first. */
  lemma MonthLengths(year: int, month: nat)
    requires month < 12
    ensures DaysInMonth(year, month)
         == [31, if IsLeap(year) then 29 else 28, 31, 30, 31, 30, 31, 31, 30, 31, 30, 31][month]
  {
    hide IsLeap;
  }

  /** 400 years are 146097 days, a whole number of weeks, so the weekdays repeat. */
  lemma WeekdaysRepeat(year: int, month: nat, day: nat)
    ensures DaysBeforeYear(year + 400) == DaysBeforeYear(year) + 146097
    ensures WeekdayColumn(Date(year + 400, month, day)) == WeekdayColumn(Date(year, month, day))
  {
    LeapsRepeat(year, month);
    assert year + 400 - 1969 == (year - 1969) + 4 * 100 && year + 400 - 1901 == (year - 1901) + 100 * 4;
    assert 146097 == 7 * 20871;
    hide IsLeap, DaysInMonth, DaysBeforeMonth;
    ColumnRepeats(DayNumber(Date(year, month, day)) + 3);
  }

  lemma ColumnRepeats(x: int)
    ensures (x + 7 * 20871) % 7 == x % 7
  {
    var q := x / 7;
    assert x + 7 * 20871 == 7 * (q + 20871) + x % 7;
  }

  lemma {:induction false} LeapsRepeat(year: int, month: nat)
    ensures DaysBeforeMonth(year + 400, month) == DaysBeforeMonth(year, month)
    decreases month
  {
    if month > 0 {
      LeapsRepeat(year, month - 1);
      LeapAgain(year);
      hide IsLeap;
    }
  }

  lemma LeapAgain(year: int)
    ensures IsLeap(year + 400) == IsLeap(year)
  {
    var q := year / 400;
    assert year + 400 == 4 * (year / 4 + 100) + year % 4;
    assert year + 400 == 100 * (year / 100 + 4) + year % 100;
    assert year + 400 == 400 * (q + 1) + year % 400;
  }

  /** Thursday is the column of the epoch, and each day is one column after the day before. */
  lemma ColumnsAdvance(d: Date)
    requires IsDate(d)
    ensures WeekdayColumn(NextDay(d)) == (WeekdayColumn(d) + 1) % 7
    ensures WeekdayColumn(Date(1970, 0, 1)) == 3
  {
    NextDayIsNext(d);
    hide NextDay;
    ColumnAfter(DayNumber(d) + 3, 1);
  }

  // ----- the month grid

  /** The year that the runtime's `Date` constructor takes a year argument for: 0 to 99 are 1900 to 1999. */
  function FullYear(year: int): int {
    if 0 <= year <= 99 then 1900 + year else year
  }

  lemma TwoDigitYears()
    ensures FullYear(0) == 1900 && FullYear(99) == 1999 && FullYear(100) == 100 && FullYear(-1) == -1
  {
  }

  /** Empty cells up to the first weekday, the days, empty cells to the end of the week. */
  ghost predicate IsGrid(cells: seq<Option<Date>>, year: int, month: nat) {
    var offset, n := WeekdayColumn(Date(year, month, 1)), DaysInMonth(year, month);
    && |cells| % 7 == 0 && offset + n <= |cells| < offset + n + 7
    && forall i | 0 <= i < |cells| :: cells[i] == CellOf(year, month, offset, n, i)
  }

  /** The cell at an index, when `n` days start after `offset` empty cells. */
  function CellOf(year: int, month: nat, offset: nat, n: nat, i: nat): Option<Date> {
    if offset <= i < offset + n then Some(Date(year, month, i - offset + 1)) else None
  }

  method GetCalendarDays(year: int, month: nat) returns (cells: seq<Option<Date>>)
    requires month < 12
    ensures IsGrid(cells, FullYear(year), month)
  {
    var full := FullYear(year);
    var startOffset := WeekdayColumn(Date(full, month, 1));
    var last := DaysInMonth(full, month);
    cells := [];
    for i := 0 to startOffset
      invariant |cells| == i && forall j | 0 <= j < i :: cells[j] == None
    {
      cells := cells + [None];
    }
    for d := 1 to last + 1
      invariant |cells| == startOffset + d - 1
      invariant forall j | 0 <= j < |cells| :: cells[j] == CellOf(full, month, startOffset, d - 1, j)
    {
      cells := cells + [Some(Date(full, month, d))];
    }
    ghost var weeks := (startOffset + last + 6) / 7;
    while |cells| % 7 != 0
      invariant startOffset + last <= |cells| <= 7 * weeks
      invariant forall j | 0 <= j < |cells| :: cells[j] == CellOf(full, month, startOffset, last, j)
      decreases 7 * weeks - |cells|
    {
      cells := cells + [None];
    }
  }

  /** Every day of the month is in the grid once, under its own weekday, and nothing else is. */
  lemma GridHoldsEachDayOnce(cells: seq<Option<Date>>, year: int, month: nat, d: Date)
    requires IsGrid(cells, year, month) && month < 12
    ensures var i := WeekdayColumn(Date(year, month, 1)) + d.day - 1;
            if IsDate(d) && d.year == year && d.month == month then
              && 0 <= i < |cells| && cells[i] == Some(d) && i % 7 == WeekdayColumn(d)
              && forall j | 0 <= j < |cells| && cells[j] == Some(d) :: j == i
            else forall j | 0 <= j < |cells| :: cells[j] != Some(d)
  {
    if d.year == year && d.month == month && d.day > 0 {
      ColumnAfter(DayNumber(Date(year, month, 1)) + 3, d.day - 1);
    }
  }

  /** The grid built for a year is that of the month shown exactly outside the years 0 to 99. */
  lemma GridIsOfMonthShownIff(cells: seq<Option<Date>>, year: int, month: nat)
    requires month < 12 && IsGrid(cells, FullYear(year), month)
    ensures IsGrid(cells, year, month) <==> !(0 <= year <= 99)
  {
    if 0 <= year <= 99 && IsGrid(cells, year, month) {
      var first := Date(year, month, 1);
      GridHoldsEachDayOnce(cells, year, month, first);
      GridHoldsEachDayOnce(cells, FullYear(year), month, first);
    }
  }

  lemma ColumnAfter(x: int, k: nat)
    ensures (x % 7 + k) % 7 == (x + k) % 7
  {
    var q := x / 7;
    assert x + k == 7 * q + (x % 7 + k);
  }
}
