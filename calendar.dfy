/** The posting calendar: the month grid (blank cells up to the weekday the
    month starts on, then the day numbers), the placeholder rule for which
    days show an event, and each cell's style. Dates follow the proleptic
    Gregorian calendar of JavaScript's `Date`; months are numbered 0..11 and
    weekdays 0 (Sunday) to 6, as `getMonth` and `getDay` number them. */
module Calendar {
  import opened Wrappers

  predicate IsLeapYear(year: int) {
    year % 4 == 0 && (year % 100 != 0 || year % 400 == 0)
  }

  function DaysInYear(year: int): int {
    if IsLeapYear(year) then 366 else 365
  }

  /** `new Date(year, month + 1, 0).getDate()`: the last day of the month,
      for years from 100 on (the constructor reads years 0 to 99 as 1900 to
      1999). */
  function DaysInMonth(year: int, month: int): (n: int)
    requires 0 <= month < 12
    ensures 28 <= n <= 31
    ensures n == 29 <==> month == 1 && IsLeapYear(year)
    ensures n == 28 <==> month == 1 && !IsLeapYear(year)
    ensures n == 30 <==> month == 3 || month == 5 || month == 8 || month == 10
  {
    if month == 1 then (if IsLeapYear(year) then 29 else 28)
    else if month == 3 || month == 5 || month == 8 || month == 10 then 30
    else 31
  }

  /** Days in the months of `year` before `month`. */
  function DaysBeforeMonth(year: int, month: int): int
    requires 0 <= month <= 12
  {
    if month == 0 then 0 else DaysBeforeMonth(year, month - 1) + DaysInMonth(year, month - 1)
  }

  /** The twelve months make up the year. */
  lemma MonthsMakeYear(year: int)
    ensures DaysBeforeMonth(year, 12) == DaysInYear(year)
  {
    var feb := DaysInMonth(year, 1);
    assert DaysBeforeMonth(year, 1) == 31;
    assert DaysBeforeMonth(year, 2) == 31 + feb;
    assert DaysBeforeMonth(year, 3) == 62 + feb;
    assert DaysBeforeMonth(year, 4) == 92 + feb;
    assert DaysBeforeMonth(year, 5) == 123 + feb;
    assert DaysBeforeMonth(year, 6) == 153 + feb;
    assert DaysBeforeMonth(year, 7) == 184 + feb;
    assert DaysBeforeMonth(year, 8) == 215 + feb;
    assert DaysBeforeMonth(year, 9) == 245 + feb;
    assert DaysBeforeMonth(year, 10) == 276 + feb;
    assert DaysBeforeMonth(year, 11) == 306 + feb;
  }

  /** Leap years before `year`, counted from a fixed origin. */
  function LeapsBefore(year: int): int {
    (year - 1) / 4 - (year - 1) / 100 + (year - 1) / 400
  }

  /** Days from 1 January 1970 to 1 January of `year` (negative before). */
  function DaysBeforeYear(year: int): int {
    365 * (year - 1970) + LeapsBefore(year) - LeapsBefore(1970)
  }

  /** Each year adds its own length. */
  lemma YearStep(year: int)
    ensures DaysBeforeYear(year + 1) == DaysBeforeYear(year) + DaysInYear(year)
  {
    var y := year - 1;
    assert LeapsBefore(year + 1) - LeapsBefore(year)
        == (year / 4 - y / 4) - (year / 100 - y / 100) + (year / 400 - y / 400);
    assert year / 4 - y / 4 == (if year % 4 == 0 then 1 else 0);
    assert year / 100 - y / 100 == (if year % 100 == 0 then 1 else 0);
    assert year / 400 - y / 400 == (if year % 400 == 0 then 1 else 0);
  }

  /** `new Date(year, month, 1).getDay()` for years from 100 on: 1 January
      1970 was a Thursday. */
  function FirstWeekday(year: int, month: int): (d: int)
    requires 0 <= month < 12
    ensures 0 <= d < 7
  {
    (4 + DaysBeforeYear(year) + DaysBeforeMonth(year, month)) % 7
  }

  /** A month starts on the weekday after the previous month's last day,
      across the turn of the year too. */
  lemma NextMonthWeekday(year: int, month: int)
    requires 0 <= month < 12
    ensures month < 11 ==>
      FirstWeekday(year, month + 1) == (FirstWeekday(year, month) + DaysInMonth(year, month)) % 7
    ensures month == 11 ==>
      FirstWeekday(year + 1, 0) == (FirstWeekday(year, 11) + DaysInMonth(year, 11)) % 7
  {
    var a := 4 + DaysBeforeYear(year) + DaysBeforeMonth(year, month);
    if month < 11 {
      assert 4 + DaysBeforeYear(year) + DaysBeforeMonth(year, month + 1) == a + DaysInMonth(year, month);
      WeekdayShift(a, DaysInMonth(year, month));
    } else {
      YearStep(year);
      MonthsMakeYear(year);
      assert 4 + DaysBeforeYear(year + 1) + DaysBeforeMonth(year + 1, 0) == a + DaysInMonth(year, 11);
      WeekdayShift(a, DaysInMonth(year, 11));
    }
  }

  /** Moving on `n` days from a weekday is moving on `n` days from the day. */
  lemma WeekdayShift(a: int, n: int)
    ensures (a % 7 + n) % 7 == (a + n) % 7
  {
    assert a == 7 * (a / 7) + a % 7;
  }

  /** 1 January 2024 was a Monday, and 1 March 2024 a Friday. */
  lemma KnownWeekdays()
    ensures FirstWeekday(2024, 0) == 1
    ensures FirstWeekday(2024, 2) == 5
  {
    assert LeapsBefore(2024) == 490 && LeapsBefore(1970) == 477;
    assert DaysBeforeYear(2024) == 19723;
    assert DaysBeforeMonth(2024, 2) == 60;
  }

  /** `getDaysInMonth`: a blank cell for each weekday before the first of
      the month, then the days 1 to the last. */
  method GetDaysInMonth(year: int, month: int) returns (days: seq<Option<int>>)
    requires 0 <= month < 12
    ensures |days| == FirstWeekday(year, month) + DaysInMonth(year, month)
    ensures forall i :: 0 <= i < FirstWeekday(year, month) ==> days[i] == None
    ensures forall i :: FirstWeekday(year, month) <= i < |days| ==>
      days[i] == Some(i - FirstWeekday(year, month) + 1)
  {
    var startingDayOfWeek := FirstWeekday(year, month);
    var daysInMonth := DaysInMonth(year, month);
    days := [];
    var i := 0;
    while i < startingDayOfWeek
      invariant 0 <= i <= startingDayOfWeek
      invariant |days| == i
      invariant forall j :: 0 <= j < i ==> days[j] == None
    {
      days := days + [None];
      i := i + 1;
    }
    i := 1;
    while i <= daysInMonth
      invariant 1 <= i <= daysInMonth + 1
      invariant |days| == startingDayOfWeek + i - 1
      invariant forall j :: 0 <= j < startingDayOfWeek ==> days[j] == None
      invariant forall j :: startingDayOfWeek <= j < |days| ==> days[j] == Some(j - startingDayOfWeek + 1)
    {
      days := days + [Some(i)];
      i := i + 1;
    }
  }

  /** The grid fits in six rows of seven, and the cell after it is the
      weekday the next month starts on. */
  lemma GridShape(year: int, month: int)
    requires 0 <= month < 11
    ensures FirstWeekday(year, month) + DaysInMonth(year, month) <= 6 * 7
    ensures FirstWeekday(year, month + 1) == (FirstWeekday(year, month) + DaysInMonth(year, month)) % 7
  {
    NextMonthWeekday(year, month);
  }

  // ------------------------------------------------------------ events

  /** `hasEventOnDay`: a placeholder, every third and every fifth day. */
  predicate HasEventOnDay(day: int)
    ensures HasEventOnDay(day) <==> EventColor(day) != "bg-accent/20"
  {
    day % 3 == 0 || day % 5 == 0
  }

  /** `getEventColor`: primary on every third day, else secondary on every
      fifth, else accent. */
  function EventColor(day: int): (c: string)
    ensures c == "bg-primary/20" || c == "bg-secondary/20" || c == "bg-accent/20"
    ensures day % 3 == 0 ==> c == "bg-primary/20"
    ensures day % 3 != 0 && day % 5 == 0 ==> c == "bg-secondary/20"
  {
    if day % 3 == 0 then "bg-primary/20"
    else if day % 5 == 0 then "bg-secondary/20"
    else "bg-accent/20"
  }

  /** The colour of a day is the accent exactly when it has no event; a
      day that is a multiple of 15 takes the primary colour. */
  lemma EventColorMatchesEvent(day: int)
    ensures EventColor(day) != "bg-accent/20" <==> HasEventOnDay(day)
    ensures day % 15 == 0 ==> EventColor(day) == "bg-primary/20"
  {
    if day % 15 == 0 {
      assert day == 15 * (day / 15);
      assert day % 3 == 0;
    }
  }

  /** The style of a grid cell: blank, today, a day with an event, or a
      plain day. This is the part of the class name after the constant
      "calendar-day " prefix every cell carries. */
  function CellClass(day: Option<int>, today: int): (c: string)
    ensures day.None? ==> c == "text-gray-400"
    ensures day.Some? && day.value == today ==> c == "calendar-day-today"
    ensures day.Some? && day.value != today && HasEventOnDay(day.value) ==>
      c == EventColor(day.value) + " calendar-day-event"
    ensures day.Some? && day.value != today && !HasEventOnDay(day.value) ==> c == "text-gray-900"
  {
    match day
    case None => "text-gray-400"
    case Some(d) =>
      if d == today then "calendar-day-today"
      else if HasEventOnDay(d) then EventColor(d) + " calendar-day-event"
      else "text-gray-900"
  }

  /** Only a blank cell is greyed out: no day, whatever its number, takes
      the blank style. */
  lemma OnlyBlankCellsGrey(day: Option<int>, today: int)
    ensures CellClass(day, today) == "text-gray-400" <==> day.None?
  {
    if day.Some? && day.value != today && HasEventOnDay(day.value) {
      var c := EventColor(day.value);
      assert CellClass(day, today)[0] == c[0] == 'b';
    }
  }
}
