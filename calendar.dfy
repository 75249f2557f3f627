/** The month calendar: the grid of a month (blank cells up to the weekday of the 1st, then the
    days), moving one month back or forward, the events of a day, and the marks drawn on a
    day's cell. Dates are proleptic Gregorian; a month is numbered 0 (January) to 11. */
module Calendar {
  import opened Common
  import opened Types

  // ---------------------------------------------------------------------------------------
  // Gregorian calendar arithmetic
  // ---------------------------------------------------------------------------------------

  predicate IsLeapYear(y: int) {
    y % 4 == 0 && (y % 100 != 0 || y % 400 == 0)
  }

  /** The Gregorian rule: 2000 and 2024 are leap years, 1900 and 2023 are not. */
  lemma LeapYearExamples()
    ensures IsLeapYear(2000) && IsLeapYear(2024) && !IsLeapYear(1900) && !IsLeapYear(2023)
  {
  }

  /** The length of month `m` of year `y` (`new Date(y, m + 1, 0).getDate()`). */
  function DaysInMonth(y: int, m: int): (n: int)
    requires 0 <= m < 12
    ensures 28 <= n <= 31
    ensures m == 1 ==> (n == 29 <==> IsLeapYear(y)) && (n == 28 <==> !IsLeapYear(y))
    ensures m != 1 ==> n >= 30
  {
    if m == 1 then (if IsLeapYear(y) then 29 else 28)
    else if m == 3 || m == 5 || m == 8 || m == 10 then 30
    else 31
  }

  /** The number of days of year `y` before the 1st of month `m`. */
  function DaysBeforeMonth(y: int, m: int): int
    requires 0 <= m <= 12
  {
    if m == 0 then 0 else DaysBeforeMonth(y, m - 1) + DaysInMonth(y, m - 1)
  }

  /** A year has 366 days when it is a leap year and 365 otherwise. */
  lemma YearLength(y: int)
    ensures DaysBeforeMonth(y, 12) == if IsLeapYear(y) then 366 else 365
  {
    var feb := DaysInMonth(y, 1);
    assert DaysBeforeMonth(y, 1) == 31;
    assert DaysBeforeMonth(y, 2) == 31 + feb;
    assert DaysBeforeMonth(y, 3) == 62 + feb;
    assert DaysBeforeMonth(y, 4) == 92 + feb;
    assert DaysBeforeMonth(y, 5) == 123 + feb;
    assert DaysBeforeMonth(y, 6) == 153 + feb;
    assert DaysBeforeMonth(y, 7) == 184 + feb;
    assert DaysBeforeMonth(y, 8) == 215 + feb;
    assert DaysBeforeMonth(y, 9) == 245 + feb;
    assert DaysBeforeMonth(y, 10) == 276 + feb;
    assert DaysBeforeMonth(y, 11) == 306 + feb;
  }

  /** The number of leap years from year 0 up to, not including, year `y` (negated for a
      year before 0). */
  function LeapYearsBefore(y: int): int {
    (y + 3) / 4 - (y + 99) / 100 + (y + 399) / 400
  }

  /** Moving on one year adds one leap year exactly when the year left behind is a leap year. */
  lemma LeapYearsStep(y: int)
    ensures LeapYearsBefore(y + 1) == LeapYearsBefore(y) + if IsLeapYear(y) then 1 else 0
  {
    FourStep(y);
    CenturyStep(y);
    QuadricentennialStep(y);
    DivisorChain(y);
  }

  /** A multiple of 400 is a multiple of 100, and a multiple of 100 is a multiple of 4. */
  lemma DivisorChain(y: int)
    ensures y % 400 == 0 ==> y % 100 == 0
    ensures y % 100 == 0 ==> y % 4 == 0
  {
    if y % 400 == 0 {
      var t := 4 * (y / 400) - y / 100;
      assert 100 * t == y % 100;
      assert t == 0;
    }
    if y % 100 == 0 {
      var t := 25 * (y / 100) - y / 4;
      assert 4 * t == y % 4;
      assert t == 0;
    }
  }

  /** The multiples of 4 counted by `LeapYearsBefore` grow by one exactly at a multiple of 4. */
  lemma FourStep(y: int)
    ensures (y + 4) / 4 == (y + 3) / 4 + (if y % 4 == 0 then 1 else 0)
  {
  }

  /** The same for the multiples of 100. */
  lemma CenturyStep(y: int)
    ensures (y + 100) / 100 == (y + 99) / 100 + (if y % 100 == 0 then 1 else 0)
  {
  }

  /** The same for the multiples of 400. */
  lemma QuadricentennialStep(y: int)
    ensures (y + 400) / 400 == (y + 399) / 400 + (if y % 400 == 0 then 1 else 0)
  {
  }

  /** The days from 1 January of year 0 to the 1st of month `m` of year `y`. */
  function DayNumber(y: int, m: int): int
    requires 0 <= m < 12
  {
    365 * y + LeapYearsBefore(y) + DaysBeforeMonth(y, m)
  }

  /** The weekday of the 1st of month `m` of year `y`, 0 for Sunday to 6 for Saturday
      (`firstDay.getDay()`); 1 January of year 0 was a Saturday. */
  function FirstWeekday(y: int, m: int): (d: int)
    requires 0 <= m < 12
    ensures 0 <= d < 7
  {
    (DayNumber(y, m) + 6) % 7
  }

  /** 1 January 1970 was a Thursday and 1 January 2024 a Monday. */
  lemma KnownFirstWeekdays()
    ensures FirstWeekday(1970, 0) == 4
    ensures FirstWeekday(2024, 0) == 1
    ensures FirstWeekday(2024, 2) == 5
  {
    assert DaysBeforeMonth(2024, 2) == 60;
  }

  // ---------------------------------------------------------------------------------------
  // Months and navigation
  // ---------------------------------------------------------------------------------------

  /** The month the calendar shows: a year and a month 0..11. */
  datatype YearMonth = YearMonth(year: int, month: int)

  predicate ValidMonth(ym: YearMonth) {
    0 <= ym.month < 12
  }

  /** Months counted from January of year 0, so that consecutive months differ by one. */
  function MonthIndex(ym: YearMonth): int {
    12 * ym.year + ym.month
  }

  /** Two valid months with the same index are the same month. */
  lemma MonthIndexInjective(a: YearMonth, b: YearMonth)
    requires ValidMonth(a) && ValidMonth(b) && MonthIndex(a) == MonthIndex(b)
    ensures a == b
  {
  }

  datatype Direction = Prev | Next

  /** The month before or after `ym`, the year wrapping at January and December. */
  function Step(ym: YearMonth, d: Direction): (r: YearMonth)
    requires ValidMonth(ym)
    ensures ValidMonth(r)
    ensures MonthIndex(r) == MonthIndex(ym) + (if d == Prev then -1 else 1)
  {
    match d
    case Prev => if ym.month == 0 then YearMonth(ym.year - 1, 11) else YearMonth(ym.year, ym.month - 1)
    case Next => if ym.month == 11 then YearMonth(ym.year + 1, 0) else YearMonth(ym.year, ym.month + 1)
  }

  /** Going forward and then back, or back and then forward, returns to the same month. */
  lemma StepsCancel(ym: YearMonth)
    requires ValidMonth(ym)
    ensures Step(Step(ym, Next), Prev) == ym
    ensures Step(Step(ym, Prev), Next) == ym
  {
    MonthIndexInjective(Step(Step(ym, Next), Prev), ym);
    MonthIndexInjective(Step(Step(ym, Prev), Next), ym);
  }

  /** The 1st of the next month comes as many days after the 1st of this month as this month
      has days. */
  lemma NextMonthDayNumber(ym: YearMonth)
    requires ValidMonth(ym)
    ensures var n := Step(ym, Next);
      DayNumber(n.year, n.month) == DayNumber(ym.year, ym.month) + DaysInMonth(ym.year, ym.month)
  {
    if ym.month == 11 {
      YearLength(ym.year);
      LeapYearsStep(ym.year);
    }
  }

  /** Adding days to a day number moves its weekday by the same amount, modulo 7. */
  lemma WeekdayShift(x: int, d: int)
    ensures (x + d + 6) % 7 == ((x + 6) % 7 + d) % 7
  {
    var q := (x + 6) / 7;
    assert x + 6 == 7 * q + (x + 6) % 7;
    assert x + d + 6 == 7 * q + ((x + 6) % 7 + d);
  }

  /** The 1st of the next month falls as many weekdays after the 1st of this month as this
      month has days, so consecutive grids line up. */
  lemma NextMonthWeekday(ym: YearMonth)
    requires ValidMonth(ym)
    ensures var n := Step(ym, Next);
      FirstWeekday(n.year, n.month) == (FirstWeekday(ym.year, ym.month) + DaysInMonth(ym.year, ym.month)) % 7
  {
    var n := Step(ym, Next);
    var x, d := DayNumber(ym.year, ym.month), DaysInMonth(ym.year, ym.month);
    NextMonthDayNumber(ym);
    WeekdayShift(x, d);
    assert FirstWeekday(n.year, n.month) == (x + d + 6) % 7;
  }

  // ---------------------------------------------------------------------------------------
  // Moving a whole date by one month
  // ---------------------------------------------------------------------------------------

  /** A day: a year, a month 0..11 and a day of the month. */
  datatype CalendarDate = CalendarDate(year: int, month: int, day: int)

  predicate ValidDate(d: CalendarDate) {
    0 <= d.month < 12 && 1 <= d.day <= DaysInMonth(d.year, d.month)
  }

  /** `date.setMonth(date.getMonth() - 1)` or `+ 1`: the year wraps and the day of the month
      is kept; a day past the end of the new month rolls over into the month after it, as a
      JavaScript `Date` does. */
  function SetMonth(d: CalendarDate, direction: Direction): (r: CalendarDate)
    requires ValidDate(d)
    ensures ValidDate(r)
    ensures r.day == d.day ==> YearMonth(r.year, r.month) == Step(YearMonth(d.year, d.month), direction)
  {
    var target := Step(YearMonth(d.year, d.month), direction);
    var length := DaysInMonth(target.year, target.month);
    if d.day <= length then CalendarDate(target.year, target.month, d.day)
    else
      var after := Step(target, Next);
      CalendarDate(after.year, after.month, d.day - length)
  }

  /** Moving a date lands in the month before or after exactly when its day of the month
      exists there; otherwise it lands one month further on. */
  lemma SetMonthLandsOnStepIffDayFits(d: CalendarDate, direction: Direction)
    requires ValidDate(d)
    ensures var target := Step(YearMonth(d.year, d.month), direction);
      var r := SetMonth(d, direction);
      && (YearMonth(r.year, r.month) == target <==> d.day <= DaysInMonth(target.year, target.month))
      && (d.day > DaysInMonth(target.year, target.month) ==> YearMonth(r.year, r.month) == Step(target, Next))
  {
    var target := Step(YearMonth(d.year, d.month), direction);
    var r := SetMonth(d, direction);
    if d.day > DaysInMonth(target.year, target.month) {
      assert MonthIndex(YearMonth(r.year, r.month)) == MonthIndex(target) + 1;
    }
  }

  /** From 31 January 2025 the "next month" button shows March: February is skipped. */
  lemma NextFromJanuaryThirtyFirstSkipsFebruary()
    ensures SetMonth(CalendarDate(2025, 0, 31), Next) == CalendarDate(2025, 2, 3)
    ensures Step(YearMonth(2025, 0), Next) == YearMonth(2025, 1)
  {
    assert DaysInMonth(2025, 1) == 28;
  }

  // ---------------------------------------------------------------------------------------
  // Events of a day
  // ---------------------------------------------------------------------------------------

  /** `events.filter(event => event.date === dateString)`: the events of one day, in the
      order they are stored. */
  function EventsForDate(events: seq<Event>, dateString: string): (r: seq<Event>)
    ensures |r| <= |events|
    ensures forall e :: e in r <==> e in events && e.date == dateString
  {
    if events == [] then []
    else
      var rest := EventsForDate(events[1..], dateString);
      assert forall e :: e in events <==> e == events[0] || e in events[1..];
      if events[0].date == dateString then [events[0]] + rest else rest
  }

  /** Filtering two lists one after the other is filtering their concatenation: the events
      of a day keep their stored order. */
  lemma {:induction false} EventsForDateAppend(a: seq<Event>, b: seq<Event>, dateString: string)
    ensures EventsForDate(a + b, dateString) == EventsForDate(a, dateString) + EventsForDate(b, dateString)
  {
    if a == [] {
      assert a + b == b;
    } else {
      assert (a + b)[1..] == a[1..] + b;
      EventsForDateAppend(a[1..], b, dateString);
    }
  }

  /** What a day's cell shows besides its number: whether it is the selected day, how many
      dots, and whether the '+' marker follows them. */
  datatype DayMarks = DayMarks(selected: bool, dots: nat, more: bool)

  /** The marks of the cell of the day whose date string is `dayString`: up to three dots,
      one per event of the day, and '+' when there are more than three. */
  function Marks(events: seq<Event>, dayString: string, selectedDate: string): (m: DayMarks)
    ensures m.selected <==> dayString == selectedDate
    ensures m.dots == Min(3, |EventsForDate(events, dayString)|)
    ensures m.more <==> |EventsForDate(events, dayString)| > 3
    ensures m.more ==> m.dots == 3
  {
    var dayEvents := EventsForDate(events, dayString);
    var shown := if |dayEvents| > 0 then dayEvents[..Min(3, |dayEvents|)] else [];
    DayMarks(dayString == selectedDate, |shown|, |dayEvents| > 0 && |dayEvents| > 3)
  }

  // ---------------------------------------------------------------------------------------
  // The calendar's state
  // ---------------------------------------------------------------------------------------

  class CalendarView {
    var current: YearMonth
    var events: seq<Event>
    var loading: bool

    constructor (today: YearMonth)
      requires ValidMonth(today)
      ensures current == today && events == [] && !loading
    {
      current, events, loading := today, [], false;
    }

    /** `getDaysInMonth`: one blank cell per weekday before the 1st, then the days 1 to the
        month's length. */
    method GetDaysInMonth() returns (days: seq<Option<int>>)
      requires ValidMonth(current)
      ensures var start := FirstWeekday(current.year, current.month);
        var n := DaysInMonth(current.year, current.month);
        && |days| == start + n
        && (forall i :: 0 <= i < start ==> days[i].None?)
        && (forall k :: 1 <= k <= n ==> days[start + k - 1] == Some(k))
    {
      var startingDayOfWeek := FirstWeekday(current.year, current.month);
      var daysInMonth := DaysInMonth(current.year, current.month);
      days := [];
      var i := 0;
      while i < startingDayOfWeek
        invariant 0 <= i <= startingDayOfWeek
        invariant |days| == i
        invariant forall j :: 0 <= j < i ==> days[j].None?
      {
        days := days + [None];
        i := i + 1;
      }
      var day := 1;
      while day <= daysInMonth
        invariant 1 <= day <= daysInMonth + 1
        invariant |days| == startingDayOfWeek + day - 1
        invariant forall j :: 0 <= j < startingDayOfWeek ==> days[j].None?
        invariant forall k :: 1 <= k < day ==> days[startingDayOfWeek + k - 1] == Some(k)
      {
        days := days + [Some(day)];
        day := day + 1;
      }
    }

    /** `navigateMonth`: one month back or forward. */
    method NavigateMonth(direction: Direction)
      requires ValidMonth(current)
      modifies this`current
      ensures current == Step(old(current), direction)
      ensures ValidMonth(current)
      ensures MonthIndex(current) == MonthIndex(old(current)) + (if direction == Prev then -1 else 1)
    {
      match direction {
        case Prev =>
          if current.month == 0 {
            current := YearMonth(current.year - 1, 11);
          } else {
            current := YearMonth(current.year, current.month - 1);
          }
        case Next =>
          if current.month == 11 {
            current := YearMonth(current.year + 1, 0);
          } else {
            current := YearMonth(current.year, current.month + 1);
          }
      }
    }

    /** `loadEvents`: a failed query keeps the events shown; otherwise they are replaced by
        the rows returned, or by none when the data is null. */
    method LoadEvents(response: Fetch<seq<Event>>)
      modifies this`events, this`loading
      ensures !loading
      ensures response.FetchFailed? ==> events == old(events)
      ensures response.Fetched? ==> events == if response.data.Some? then response.data.value else []
    {
      loading := true;
      if response.Fetched? {
        events := if response.data.Some? then response.data.value else [];
      }
      loading := false;
    }
  }
}
