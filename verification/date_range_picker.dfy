/** The date range picker: the month shown, the two ends being picked, and today as the limit of both. */
module DatePicker {
  import opened Calendar
  import opened Decimal
  import opened PrintedDays
  import opened Text

  /** A printed day that is not after today. */
  ghost predicate IsPast(s: string, today: Date) {
    exists d: Date :: IsDate(d) && s == Fmt(d) && DayNumber(d) <= DayNumber(today)
  }

  /** Two printed days, neither after today, in string order. */
  ghost predicate IsPair(from: string, to: string, today: Date) {
    IsPast(from, today) && IsPast(to, today) && !StrLess(to, from)
  }

  lemma SamePair(s: string, today: Date)
    requires IsPast(s, today)
    ensures IsPair(s, s, today)
  {
    StrLessIsStrict(s, s);
  }

  function Earlier(y: int, z: int): int {
    if y <= z then y else z
  }

  function Later(y: int, z: int): int {
    if y <= z then z else y
  }

  /**
   * Two printed days in string order stand for two days, neither after today; these are in order
   * exactly when they share a year or their years print in order.
   */
  lemma PairIsChronologicalIff(from: string, to: string, today: Date) returns (a: Date, b: Date)
    requires IsPair(from, to, today)
    ensures IsDate(a) && IsDate(b) && from == Fmt(a) && to == Fmt(b)
    ensures DayNumber(a) <= DayNumber(today) && DayNumber(b) <= DayNumber(today)
    ensures DayNumber(a) <= DayNumber(b)
            <==> a.year == b.year || PrintsInOrder(Earlier(a.year, b.year), Later(a.year, b.year))
  {
    a :| IsDate(a) && from == Fmt(a) && DayNumber(a) <= DayNumber(today);
    b :| IsDate(b) && to == Fmt(b) && DayNumber(b) <= DayNumber(today);
    hide Fmt, DayNumber, PrintsInOrder;
    if a.year <= b.year {
      FmtOrderIff(a, b);
    } else {
      FmtOrderIff(b, a);
      DateLessIsEarlier(b, a);
    }
  }

  /** For years of four digits a pair in string order is a pair of days in order. */
  lemma PairIsChronological(a: Date, b: Date)
    requires InRange(a) && InRange(b) && !StrLess(Fmt(b), Fmt(a))
    ensures DayNumber(a) <= DayNumber(b)
  {
    hide Fmt, DayNumber;
    FmtOrder(b, a);
  }

  /** The month shown is not after today's. */
  predicate NotPast(year: int, month: nat, today: Date) {
    year < today.year || (year == today.year && month <= today.month)
  }

  /** The grid of the month shown has this day. */
  predicate InGrid(d: Date, year: int, month: nat) {
    IsDate(d) && d.year == FullYear(year) && d.month == month
  }

  /** Today's own month is the last, even if it prints longer than the part of today compared with it. */
  lemma TodayIsLast(today: Date)
    requires IsDate(today) && today.year >= 1000
    ensures |Fmt(today)| >= 7 && AtLastMonth(today.year, today.month, today)
  {
    TodayIsLong(today);
    var text := MonthText(today.year, today.month);
    hide Fmt, MonthText;
    StrLessOfConcat(text[..7], text[..7], text[7..], "");
    StrLessIsStrict(text[..7], text[..7]);
    assert text[..7] + text[7..] == text && text[..7] + "" == text[..7];
  }

  /** What can be clicked: a day that is not in the future and whose year prints in order with today's. */
  predicate IsSelectable(d: Date, today: Date) {
    DayNumber(d) <= DayNumber(today) && (d.year >= today.year || PrintsInOrder(d.year, today.year))
  }

  /** The string comparison with today decides just that, for every day a grid can show. */
  lemma SelectableIff(d: Date, year: int, month: nat, today: Date)
    requires InGrid(d, year, month) && NotPast(year, month, today) && IsDate(today) && today.year >= 1000
    ensures !StrLess(Fmt(today), Fmt(d)) <==> IsSelectable(d, today)
  {
    hide Fmt, DayNumber, PrintsInOrder;
    DateLessIsEarlier(d, today);
    DateLessIsEarlier(today, d);
    if d.year <= today.year {
      FmtOrderIff(d, today);
    } else {
      FmtOrder(today, d);
    }
  }

  /** In 2024 a day of the year 1000 and then one of the year 150 can be clicked, and count as in order. */
  lemma ReversedPairExample(today: Date)
    requires IsDate(today) && today.year == 2024
    ensures var a, b := Date(150, 0, 1), Date(1000, 0, 1);
            && IsSelectable(a, today) && IsSelectable(b, today)
            && !StrLess(Fmt(a), Fmt(b)) && DayNumber(a) < DayNumber(b)
  {
    var a, b := Date(150, 0, 1), Date(1000, 0, 1);
    assert IsDate(a) && IsDate(b) && DateLess(a, b) && DateLess(a, today) && DateLess(b, today);
    hide DayNumber;
    DateLessIsEarlier(a, b);
    DateLessIsEarlier(a, today);
    DateLessIsEarlier(b, today);
    ExampleHeads();
    FmtFieldOrder(a, b);
    hide Fmt, Digits, Head;
  }

  lemma ExampleHeads()
    ensures |Digits(150)| == 3 && |Digits(1000)| == 4 && |Digits(2024)| == 4
    ensures Head(1000, 3) == 100 && Head(2024, 3) == 202 && Head(2024, 4) == 2024
  {
    assert |Digits(1)| == 1 && |Digits(15)| == 2;
    assert |Digits(10)| == 2 && |Digits(100)| == 3;
    assert |Digits(2)| == 1 && |Digits(20)| == 2 && |Digits(202)| == 3;
    assert Head(100, 3) == 100 && Head(202, 3) == 202;
  }

  /** `s.slice(0, 10)` */
  function Slice10(s: string): string {
    if |s| <= 10 then s else s[..10]
  }

  lemma FmtIsTen(d: Date)
    requires InRange(d)
    ensures |Fmt(d)| == 10
  {
    FourDigits(d.year);
    PadOrder(d.month + 1, d.day);
  }

  /** A printed day has ten characters exactly if its year has four, a minus sign among them. */
  lemma FmtIsTenIff(d: Date)
    requires IsDate(d)
    ensures |Fmt(d)| == 10 <==> |YearText(d.year)| == 4
  {
    PadOrder(d.month + 1, d.day);
  }

  // ----- the picker as a state machine

  type Today = d: Date | IsDate(d) && d.year >= 1000 witness Date(1970, 0, 1)

  /** The month shown, the pending ends as strings, whether the second end is being picked, and today. */
  datatype Picker = Picker(viewYear: int, viewMonth: nat, from: string, to: string, pickingEnd: bool, today: Today)

  /**
   * What can happen: clicks, month steps, the date line passing, the confirm button, and a range
   * coming from outside (a stored value, a preset, a cancel or a click outside).
   */
  datatype UiEvent =
    | Click(day: nat) | PrevMonth | NextMonth | Midnight
    | Confirm(fromTime: string, toTime: string)
    | Adopt(from: string, to: string)

  /** The first click starts a range; the second completes it, the earlier string first. */
  function Clicked(p: Picker, ds: string): Picker {
    if !p.pickingEnd then p.(from := ds, to := "", pickingEnd := true)
    else if StrLess(ds, p.from) then p.(from := ds, to := p.from, pickingEnd := false)
    else p.(to := ds, pickingEnd := false)
  }

  function DayShown(p: Picker, day: nat): Date {
    Date(FullYear(p.viewYear), p.viewMonth, day)
  }

  /** The grid has the day and it does not compare after today. */
  predicate CanClick(p: Picker, day: nat) {
    IsDate(DayShown(p, day)) && !StrLess(Fmt(p.today), Fmt(DayShown(p, day)))
  }

  function Adopted(p: Picker, from: string, to: string): Picker {
    p.(from := Slice10(from), to := Slice10(to), pickingEnd := false)
  }

  /** The second end of a confirmed range; a single day stands for both ends. */
  function LastDay(p: Picker): string {
    if p.to != "" then p.to else p.from
  }

  function WithTime(day: string, time: string): string {
    if day != "" then day + "T" + time else ""
  }

  function PrevShown(p: Picker): Picker {
    if p.viewMonth == 0 then p.(viewYear := p.viewYear - 1, viewMonth := 11) else p.(viewMonth := p.viewMonth - 1)
  }

  predicate IsAtLast(p: Picker) {
    TodayIsLong(p.today);
    AtLastMonth(p.viewYear, p.viewMonth, p.today)
  }

  function NextShown(p: Picker): Picker {
    if IsAtLast(p) then p
    else if p.viewMonth == 11 then p.(viewYear := p.viewYear + 1, viewMonth := 0)
    else p.(viewMonth := p.viewMonth + 1)
  }

  function Tomorrow(today: Today): Today {
    NextDayIsNext(today);
    NextDay(today)
  }

  /** A confirmed range comes back from the owner of the picker with the times attached. */
  function Step(p: Picker, e: UiEvent): Picker {
    match e
    case Click(day) => if CanClick(p, day) then Clicked(p, Fmt(DayShown(p, day))) else p
    case PrevMonth => PrevShown(p)
    case NextMonth => NextShown(p)
    case Midnight => p.(today := Tomorrow(p.today))
    case Confirm(fromTime, toTime) => Adopted(p, WithTime(p.from, fromTime), WithTime(LastDay(p), toTime))
    case Adopt(from, to) => Adopted(p, from, to)
  }

  function Run(start: Picker, events: seq<UiEvent>): Picker
    decreases |events|
  {
    if events == [] then start else Step(Run(start, Init(events)), Last(events))
  }

  // ----- where the ends come from

  /** The ends are picked by clicks, or they are a range as it was given. */
  datatype Source = Picked | Given(from: string, to: string)

  /** Confirming keeps picked ends exactly as they are. */
  predicate KeptByConfirm(p: Picker) {
    |p.from| == 10 && |LastDay(p)| == 10
  }

  /**
   * A click that counts makes the ends picked; an adopted range is given, and so is a confirmed one
   * that was changed.
   */
  function SourceAfter(src: Source, p: Picker, e: UiEvent): Source {
    match e
    case Click(day) => if CanClick(p, day) then Picked else src
    case Adopt(from, to) => Given(from, to)
    case Confirm(fromTime, toTime) =>
      if src == Picked && KeptByConfirm(p) then Picked
      else Given(WithTime(p.from, fromTime), WithTime(LastDay(p), toTime))
    case _ => src
  }

  /** The source of the ends after a run, told from its events. */
  function SourceOf(src: Source, start: Picker, events: seq<UiEvent>): Source
    decreases |events|
  {
    if events == [] then src
    else SourceAfter(SourceOf(src, start, Init(events)), Run(start, Init(events)), Last(events))
  }

  /** Picked ends: one day that is not after today, or a completed pair of such days in string order. */
  ghost predicate ArePicked(p: Picker) {
    if p.pickingEnd then IsPast(p.from, p.today) && p.to == "" else IsPair(p.from, p.to, p.today)
  }

  ghost predicate Agrees(src: Source, p: Picker) {
    match src
    case Picked => ArePicked(p)
    case Given(from, to) => !p.pickingEnd && p.from == Slice10(from) && p.to == Slice10(to)
  }

  predicate InView(p: Picker) {
    p.viewMonth < 12 && NotPast(p.viewYear, p.viewMonth, p.today)
  }

  // ----- every step

  lemma ClickedArePicked(p: Picker, ds: string)
    requires IsPast(ds, p.today) && (p.pickingEnd ==> ArePicked(p))
    ensures ArePicked(Clicked(p, ds))
  {
    hide IsPast;
    StrLessIsStrict(ds, p.from);
    hide StrLess;
  }

  lemma ClickAgrees(src: Source, p: Picker, day: nat)
    requires InView(p) && Agrees(src, p)
    ensures Agrees(SourceAfter(src, p, Click(day)), Step(p, Click(day)))
  {
    if CanClick(p, day) {
      var d := DayShown(p, day);
      SelectableIff(d, p.viewYear, p.viewMonth, p.today);
      SelectableIsPast(d, p.today);
      hide Fmt, IsPast, StrLess, IsSelectable, Clicked, ArePicked;
      ClickedArePicked(p, Fmt(d));
    }
  }

  /** Attaching a time and cutting to ten characters gives a day back exactly if it is absent or ten long. */
  lemma ConfirmedDayIff(day: string, time: string)
    ensures Slice10(WithTime(day, time)) == day <==> day == "" || |day| == 10
  {
    var text := day + "T" + time;
    if |day| == 10 {
      assert text[..10] == day;
    } else if |day| > 10 {
      assert |Slice10(text)| == 10;
    } else if day != "" {
      assert text[|day|] == 'T' && |Slice10(text)| > |day|;
    }
  }

  lemma ConfirmAgrees(src: Source, p: Picker, fromTime: string, toTime: string)
    requires Agrees(src, p)
    ensures Agrees(SourceAfter(src, p, Confirm(fromTime, toTime)), Step(p, Confirm(fromTime, toTime)))
  {
    if src == Picked && KeptByConfirm(p) {
      ConfirmedDayIff(p.from, fromTime);
      ConfirmedDayIff(LastDay(p), toTime);
      hide IsPast, Slice10, WithTime;
      if p.pickingEnd {
        SamePair(p.from, p.today);
      }
    }
  }

  lemma MidnightAgrees(src: Source, p: Picker)
    requires Agrees(src, p)
    ensures Agrees(src, p.(today := Tomorrow(p.today)))
  {
    NextDayIsNext(p.today);
    StaysPast(p.from, p.today, NextDay(p.today));
    StaysPast(p.to, p.today, NextDay(p.today));
    hide IsPast, DayNumber, StrLess;
  }

  /** A step to the next month never passes today's. */
  lemma StepInView(p: Picker, e: UiEvent)
    requires InView(p)
    ensures InView(Step(p, e))
  {
    TodayIsLast(p.today);
    hide AtLastMonth, CanClick, Clicked, Fmt, Slice10, WithTime, DayNumber;
  }

  /** The test for the last month lets the step through exactly as `MovesOn` says. */
  lemma NextMoves(p: Picker)
    requires InView(p) && InRange(p.today)
    ensures var q := NextShown(p);
            q.viewYear * 12 + q.viewMonth
            == p.viewYear * 12 + p.viewMonth + if MovesOn(p.viewYear, p.viewMonth, p.today) then 1 else 0
  {
    AtLastMonthIsRightIff(p.viewYear, p.viewMonth, p.today);
    hide AtLastMonth, PrintsInOrder, Fmt;
  }

  lemma StepAgrees(src: Source, p: Picker, e: UiEvent)
    requires InView(p) && Agrees(src, p)
    ensures Agrees(SourceAfter(src, p, e), Step(p, e))
  {
    match e
    case Click(day) => ClickAgrees(src, p, day);
    case PrevMonth => hide IsPast, StrLess;
    case NextMonth => hide IsPast, StrLess, IsAtLast;
    case Midnight => MidnightAgrees(src, p);
    case Confirm(fromTime, toTime) => ConfirmAgrees(src, p, fromTime, toTime);
    case Adopt(from, to) =>
  }

  // ----- every run

  /**
   * Over every run: picked ends are days that do not lie in the future, and as a completed pair in
   * string order; other ends are the range that the run names; the month shown is not past today's.
   */
  lemma {:induction false} RunAgrees(src: Source, start: Picker, events: seq<UiEvent>)
    requires InView(start) && Agrees(src, start)
    ensures InView(Run(start, events)) && Agrees(SourceOf(src, start, events), Run(start, events))
    ensures DayNumber(start.today) <= DayNumber(Run(start, events).today)
    decreases |events|
  {
    hide Step, SourceAfter, Agrees, InView, DayNumber;
    if events != [] {
      var before := Init(events);
      RunAgrees(src, start, before);
      StepInView(Run(start, before), Last(events));
      StepAgrees(SourceOf(src, start, before), Run(start, before), Last(events));
      TimePasses(Run(start, before), Last(events));
    }
  }

  lemma TimePasses(p: Picker, e: UiEvent)
    ensures DayNumber(p.today) <= DayNumber(Step(p, e).today)
  {
    NextDayIsNext(p.today);
    hide DayNumber, CanClick, IsAtLast, Clicked;
  }

  predicate IsInside(e: UiEvent) {
    !e.Adopt? && !e.Confirm?
  }

  /**
   * Any run of clicks, month steps and midnights, from any start that is not in the middle of a
   * pick: no click has counted and the ends are those of the start, or they are picked.
   */
  lemma {:induction false} ClicksAndMonths(start: Picker, events: seq<UiEvent>)
    requires InView(start) && !start.pickingEnd && forall k | 0 <= k < |events| :: IsInside(events[k])
    ensures var p := Run(start, events);
            InView(p) && (ArePicked(p) || (p.from == start.from && p.to == start.to && !p.pickingEnd))
    decreases |events|
  {
    hide ArePicked, Step, CanClick;
    if events != [] {
      var before, e := Init(events), Last(events);
      var p := Run(start, before);
      ClicksAndMonths(start, before);
      StepInView(p, e);
      InsideStep(p, e);
    }
  }

  lemma InsideStep(p: Picker, e: UiEvent)
    requires InView(p) && IsInside(e) && (ArePicked(p) || !p.pickingEnd)
    ensures var q := Step(p, e);
            ArePicked(q) || (!ArePicked(p) && q.from == p.from && q.to == p.to && !q.pickingEnd)
  {
    if ArePicked(p) {
      StepAgrees(Picked, p, e);
      assert SourceAfter(Picked, p, e) == Picked;
    } else if e.Click? && CanClick(p, e.day) {
      var d := DayShown(p, e.day);
      SelectableIff(d, p.viewYear, p.viewMonth, p.today);
      SelectableIsPast(d, p.today);
      hide Fmt, IsPast, StrLess, IsSelectable, Clicked, ArePicked;
      ClickedArePicked(p, Fmt(d));
    }
    hide ArePicked, CanClick, IsAtLast, AtLastMonth;
  }

  /** Ends that a confirm gives back: absent, or ten characters long. */
  predicate TenOrNone(p: Picker) {
    |p.from| == 10 && (p.to == "" || |p.to| == 10)
  }

  /** The days clicked in a run print their year with four characters, as the years 1000 to 9999 do. */
  ghost predicate FourDigitClicks(start: Picker, events: seq<UiEvent>) {
    forall k, day | 0 <= k < |events| && events[k] == Click(day) && CanClick(Run(start, events[..k]), day) ::
      |YearText(DayShown(Run(start, events[..k]), day).year)| == 4
  }

  /**
   * Once picked, ends of four-digit years stay picked until another range is adopted, through any
   * number of confirms.
   */
  lemma {:induction false} StaysPicked(start: Picker, events: seq<UiEvent>)
    requires InView(start) && ArePicked(start) && TenOrNone(start)
    requires (forall k | 0 <= k < |events| :: !events[k].Adopt?) && FourDigitClicks(start, events)
    ensures ArePicked(Run(start, events)) && TenOrNone(Run(start, events)) && InView(Run(start, events))
    decreases |events|
  {
    hide ArePicked, Step, CanClick, YearText, InView, TenOrNone;
    if events != [] {
      var before, e := Init(events), Last(events);
      assert forall k | 0 <= k < |before| :: before[..k] == events[..k] && before[k] == events[k];
      assert events[..|before|] == before && events[|before|] == e;
      StaysPicked(start, before);
      StepInView(Run(start, before), e);
      StepStaysPicked(Run(start, before), e);
    }
  }

  lemma StepStaysPicked(p: Picker, e: UiEvent)
    requires InView(p) && ArePicked(p) && TenOrNone(p) && !e.Adopt?
    requires e.Click? && CanClick(p, e.day) ==> |YearText(DayShown(p, e.day).year)| == 4
    ensures ArePicked(Step(p, e)) && TenOrNone(Step(p, e))
  {
    StepAgrees(Picked, p, e);
    if e.Click? {
      ClickKeepsTen(p, e.day);
    } else if e.Confirm? {
      ConfirmKeepsTen(p, e.fromTime, e.toTime);
    }
    hide ArePicked, CanClick, IsAtLast, YearText, WithTime, Slice10, InView;
  }

  lemma ClickKeepsTen(p: Picker, day: nat)
    requires TenOrNone(p) && (CanClick(p, day) ==> |YearText(DayShown(p, day).year)| == 4)
    ensures TenOrNone(Step(p, Click(day)))
  {
    if CanClick(p, day) {
      FmtIsTenIff(DayShown(p, day));
    }
    hide Fmt, YearText, StrLess;
  }

  lemma ConfirmKeepsTen(p: Picker, fromTime: string, toTime: string)
    requires TenOrNone(p)
    ensures TenOrNone(Step(p, Confirm(fromTime, toTime))) && KeptByConfirm(p)
  {
    ConfirmedDayIff(p.from, fromTime);
    ConfirmedDayIff(LastDay(p), toTime);
    hide Slice10, WithTime;
  }

  /** In 2024 a day of the year 150 can be clicked, and confirming it leaves ends that are not that day. */
  lemma ConfirmExample(today: Today, fromTime: string, toTime: string)
    requires today.year == 2024
    ensures var start := Picker(150, 0, "", "", false, today);
            var d, p := Date(150, 0, 1), Run(start, [Click(1), Confirm(fromTime, toTime)]);
            CanClick(start, 1) && Run(start, [Click(1)]).from == Fmt(d) && p.from != Fmt(d) && p.to != Fmt(d)
  {
    var start, d := Picker(150, 0, "", "", false, today), Date(150, 0, 1);
    ReversedPairExample(today);
    SelectableIff(d, 150, 0, today);
    ExampleHeads();
    FmtIsTenIff(d);
    hide IsSelectable, DayNumber, StrLess, Digits, Slice10, WithTime;
    assert Init([Click(1)]) == [] && Init([Click(1), Confirm(fromTime, toTime)]) == [Click(1)];
    assert Run(start, [Click(1)]) == Clicked(start, Fmt(d)) == start.(from := Fmt(d), pickingEnd := true);
    ConfirmedDayIff(Fmt(d), fromTime);
    ConfirmedDayIff(Fmt(d), toTime);
    assert Fmt(d) != "";
    hide Fmt;
  }

  // ----- the component

  /** The component's state; today is what the clock says. */
  class DateRangePicker {
    var viewYear: int
    var viewMonth: nat
    var pendingFrom: string
    var pendingTo: string
    var pickingEnd: bool
    ghost var source: Source

    function View(today: Today): Picker
      reads this
    {
      Picker(viewYear, viewMonth, pendingFrom, pendingTo, pickingEnd, today)
    }

    /** The ends are what their source makes of them; the month shown is not past today's. */
    ghost predicate Valid(today: Today)
      reads this
    {
      InView(View(today)) && Agrees(source, View(today))
    }

    constructor (today: Today, from: string, to: string)
      ensures View(today) == Picker(today.year, today.month, Slice10(from), Slice10(to), false, today)
      ensures Valid(today) && source == Given(from, to)
    {
      viewYear, viewMonth := today.year, today.month;
      pendingFrom, pendingTo, pickingEnd, source := Slice10(from), Slice10(to), false, Given(from, to);
    }

    /** The ends of a range from outside; the month shown stays. */
    method AdoptRange(from: string, to: string, ghost today: Today)
      requires Valid(today)
      modifies this`pendingFrom, this`pendingTo, this`pickingEnd, this`source
      ensures Valid(today) && source == Given(from, to) && View(today) == Step(old(View(today)), Adopt(from, to))
    {
      pendingFrom, pendingTo, pickingEnd, source := Slice10(from), Slice10(to), false, Given(from, to);
    }

    /** Hands the pair to the owner with times attached, and takes it back as the new value. */
    method HandleConfirm(fromTime: string, toTime: string, ghost today: Today) returns (from: string, to: string)
      requires Valid(today)
      modifies this`pendingFrom, this`pendingTo, this`pickingEnd, this`source
      ensures Valid(today) && View(today) == Step(old(View(today)), Confirm(fromTime, toTime))
      ensures source == SourceAfter(old(source), old(View(today)), Confirm(fromTime, toTime))
      ensures from == if old(pendingFrom) == "" then "" else old(pendingFrom) + "T" + fromTime
      ensures to == if old(pendingTo) != "" then old(pendingTo) + "T" + toTime
                    else if old(pendingFrom) != "" then old(pendingFrom) + "T" + toTime else ""
      ensures var to := if old(pendingTo) != "" then old(pendingTo) else old(pendingFrom);
              && (pendingFrom == old(pendingFrom) <==> old(pendingFrom) == "" || |old(pendingFrom)| == 10)
              && (pendingTo == to <==> to == "" || |to| == 10)
    {
      ConfirmAgrees(source, View(today), fromTime, toTime);
      source := SourceAfter(source, View(today), Confirm(fromTime, toTime));
      var fromDate := pendingFrom;
      var toDate := if pendingTo != "" then pendingTo else pendingFrom;
      ConfirmedDayIff(fromDate, fromTime);
      ConfirmedDayIff(toDate, toTime);
      hide SourceAfter, Agrees;
      from := if fromDate != "" then fromDate + "T" + fromTime else "";
      to := if toDate != "" then toDate + "T" + toTime else "";
      pendingFrom, pendingTo, pickingEnd := Slice10(from), Slice10(to), false;
    }

    method ShowPrevMonth(ghost today: Today)
      requires Valid(today)
      modifies this`viewYear, this`viewMonth
      ensures Valid(today) && View(today) == Step(old(View(today)), PrevMonth)
      ensures viewYear * 12 + viewMonth == old(viewYear * 12 + viewMonth) - 1
    {
      StepInView(View(today), PrevMonth);
      StepAgrees(source, View(today), PrevMonth);
      hide Agrees, NotPast;
      if viewMonth == 0 {
        viewYear, viewMonth := viewYear - 1, 11;
      } else {
        viewMonth := viewMonth - 1;
      }
    }

    /**
     * Moves on unless today's month is shown, when the years print in order; otherwise it stays
     * where it is. It never moves past today's month.
     */
    method ShowNextMonth(today: Today)
      requires Valid(today)
      modifies this`viewYear, this`viewMonth
      ensures Valid(today) && View(today) == Step(old(View(today)), NextMonth)
      ensures InRange(today) ==>
                viewYear * 12 + viewMonth == old(viewYear * 12 + viewMonth)
                  + if MovesOn(old(viewYear), old(viewMonth), today) then 1 else 0
    {
      StepInView(View(today), NextMonth);
      StepAgrees(source, View(today), NextMonth);
      if InRange(today) {
        NextMoves(View(today));
      }
      TodayIsLong(today);
      hide Fmt, AtLastMonth, MovesOn, Agrees, InView, InRange;
      if AtLastMonth(viewYear, viewMonth, today) {
        return;
      }
      if viewMonth == 11 {
        viewYear, viewMonth := viewYear + 1, 0;
      } else {
        viewMonth := viewMonth + 1;
      }
    }

    /** The first click starts a range; the second completes it, the earlier string first. */
    method HandleDayClick(ds: string, ghost today: Today)
      requires Valid(today) && IsPast(ds, today)
      modifies this`pendingFrom, this`pendingTo, this`pickingEnd, this`source
      ensures Valid(today) && source == Picked && View(today) == Clicked(old(View(today)), ds)
      ensures if !old(pickingEnd) then pickingEnd && pendingFrom == ds && pendingTo == ""
              else !pickingEnd && multiset{pendingFrom, pendingTo} == multiset{old(pendingFrom), ds}
    {
      ClickedArePicked(View(today), ds);
      source := Picked;
      hide IsPast, StrLess;
      if !pickingEnd {
        pendingFrom, pendingTo, pickingEnd := ds, "", true;
      } else {
        var from, to := pendingFrom, ds;
        if StrLess(to, from) {
          from, to := to, from;
        }
        pendingFrom, pendingTo, pickingEnd := from, to, false;
      }
    }

    /** A click on a day of the grid; a day that compares after today is not selectable. */
    method ClickDay(day: nat, today: Today)
      requires Valid(today) && IsDate(DayShown(View(today), day))
      modifies this`pendingFrom, this`pendingTo, this`pickingEnd, this`source
      ensures Valid(today) && View(today) == Step(old(View(today)), Click(day))
      ensures source == SourceAfter(old(source), old(View(today)), Click(day))
      ensures var d := DayShown(old(View(today)), day);
              if !IsSelectable(d, today) then View(today) == old(View(today)) && source == old(source)
              else source == Picked && ArePicked(View(today))
    {
      var d := Date(FullYear(viewYear), viewMonth, day);
      SelectableIff(d, viewYear, viewMonth, today);
      if StrLess(Fmt(today), Fmt(d)) {
        return;
      }
      SelectableIsPast(d, today);
      hide Fmt, DayNumber, PrintsInOrder, IsSelectable, IsPast, IsDate, StrLess, ArePicked;
      HandleDayClick(Fmt(d), today);
    }

    /** Plays a run, days passing meanwhile: the picker ends where the run does. */
    method Play(events: seq<UiEvent>, start: Today) returns (today: Today)
      requires Valid(start)
      modifies this
      ensures Valid(today) && View(today) == Run(old(View(start)), events)
      ensures source == SourceOf(old(source), old(View(start)), events)
    {
      hide IsPast, StrLess, DayNumber, IsSelectable, Fmt, Agrees, InView, Clicked, CanClick, SourceAfter;
      today := start;
      for k := 0 to |events|
        invariant Valid(today) && View(today) == Run(old(View(start)), events[..k])
        invariant source == SourceOf(old(source), old(View(start)), events[..k])
      {
        assert Init(events[..k + 1]) == events[..k] && Last(events[..k + 1]) == events[k];
        StepAgrees(source, View(today), events[k]);
        StepInView(View(today), events[k]);
        today := PlayOne(events[k], today);
      }
      assert events[..|events|] == events;
    }

    method PlayOne(e: UiEvent, now: Today) returns (today: Today)
      requires Valid(now)
      modifies this
      ensures Valid(today) && View(today) == Step(old(View(now)), e)
      ensures source == SourceAfter(old(source), old(View(now)), e)
    {
      StepAgrees(source, View(now), e);
      StepInView(View(now), e);
      hide IsPast, StrLess, DayNumber, IsSelectable, Fmt, Agrees, InView, Clicked;
      today := now;
      match e {
        case Click(day) =>
          if IsDate(DayShown(View(now), day)) {
            ClickDay(day, today);
          }
        case PrevMonth => ShowPrevMonth(today);
        case NextMonth => ShowNextMonth(today);
        case Confirm(fromTime, toTime) => var from, to := HandleConfirm(fromTime, toTime, today);
        case Adopt(from, to) => AdoptRange(from, to, today);
        case Midnight => today := Tomorrow(now);
      }
    }
  }

  /** Whether a step to the next month moves: today's month is not shown, and the years print in order. */
  predicate MovesOn(year: int, month: nat, today: Date) {
    !(year == today.year && month == today.month) && (year == today.year || PrintsInOrder(year, today.year))
  }

  lemma SelectableIsPast(d: Date, today: Date)
    requires IsDate(d) && IsSelectable(d, today)
    ensures IsPast(Fmt(d), today)
  {
    hide Fmt, DayNumber;
  }

  lemma PastIsPrinted(s: string, today: Date)
    ensures IsPast(s, today) ==> s != ""
  {
    assert forall d: Date :: Fmt(d) != "";
  }

  lemma StaysPast(s: string, today: Date, later: Date)
    requires DayNumber(today) <= DayNumber(later)
    ensures IsPast(s, today) ==> IsPast(s, later)
  {
    if IsPast(s, today) {
      var d :| IsDate(d) && s == Fmt(d) && DayNumber(d) <= DayNumber(today);
      assert IsDate(d) && s == Fmt(d) && DayNumber(d) <= DayNumber(later);
    }
  }
}
