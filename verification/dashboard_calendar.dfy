/** The dashboard's month calendar (src/components/features/dashboard/calendar.tsx):
    a grid of exactly 35 cells (the tail of the previous month, the days of
    the month with up to two reminders each, the head of the next month),
    a selected date that a second click clears, month arrows that land on
    the first of the adjacent month, and the side panel of the selected
    date's reminders. Times are local milliseconds and dates local day
    numbers; `offset` is the zone's distance from UTC (local minus UTC, in
    milliseconds), which `toISOString` takes off before it writes the date. */
module DashboardCalendar {
  import opened Common
  import PlanCalendar

  datatype Reminder = Reminder(id: string, noteId: string, reminderText: string, reminderTime: int,
                               completed: bool)

  datatype NoteRef = NoteRef(id: string, title: string)

  /** The date `toISOString` writes for local time `t`: the UTC day. */
  function UtcDay(t: int, offset: int): int {
    DayOf(t - offset)
  }

  function OnUtcDay(day: int, offset: int): Reminder -> bool {
    (r: Reminder) => UtcDay(r.reminderTime, offset) == day
  }

  /** `getRemindersByDate` as written: the reminders whose UTC date is the
      UTC date of `at`, in list order. */
  function RemindersOn(reminders: seq<Reminder>, at: int, offset: int): (r: seq<Reminder>)
    ensures forall x :: x in r <==> x in reminders && UtcDay(x.reminderTime, offset) == UtcDay(at, offset)
    ensures IsSubseq(r, reminders)
  {
    FilterSubseq(reminders, OnUtcDay(UtcDay(at, offset), offset));
    Filter(reminders, OnUtcDay(UtcDay(at, offset), offset))
  }

  function OnDay(day: int): Reminder -> bool {
    (r: Reminder) => DayOf(r.reminderTime) == day
  }

  /** The reminders due on a local day, in list order: what a cell is meant
      to show. */
  function LocalRemindersOn(reminders: seq<Reminder>, day: int): (r: seq<Reminder>)
    ensures forall x :: x in r <==> x in reminders && DayOf(x.reminderTime) == day
    ensures IsSubseq(r, reminders)
  {
    FilterSubseq(reminders, OnDay(day));
    Filter(reminders, OnDay(day))
  }

  /** In UTC itself a cell lists exactly its local day's reminders. */
  lemma RemindersOnAtUtc(reminders: seq<Reminder>, day: int)
    ensures RemindersOn(reminders, day * Day, 0) == LocalRemindersOn(reminders, day)
  {
    assert UtcDay(day * Day, 0) == day;
    assert forall x :: OnUtcDay(day, 0)(x) == OnDay(day)(x);
    FilterSame(reminders, OnUtcDay(day, 0), OnDay(day));
  }

  /** East of UTC, the cell of local day `day` (its local midnight) lists a
      reminder of the evening before, from `offset` past the previous
      midnight on, and not the reminders of its own day from `offset` on. */
  lemma CellShowsDayBefore(x: Reminder, day: int, offset: int)
    requires 0 < offset < Day
    ensures (day - 1) * Day + offset <= x.reminderTime < day * Day ==>
              x in RemindersOn([x], day * Day, offset) && x !in LocalRemindersOn([x], day)
    ensures day * Day + offset <= x.reminderTime < (day + 1) * Day ==>
              x !in RemindersOn([x], day * Day, offset) && x in LocalRemindersOn([x], day)
  {
    DayOfBetween(day * Day - offset, day - 1);
    if (day - 1) * Day + offset <= x.reminderTime < day * Day {
      DayOfBetween(x.reminderTime - offset, day - 1);
      DayOfBetween(x.reminderTime, day - 1);
    }
    if day * Day + offset <= x.reminderTime < (day + 1) * Day {
      DayOfBetween(x.reminderTime - offset, day);
      DayOfBetween(x.reminderTime, day);
    }
  }

  /** A time within a day has that day's number. */
  lemma DayOfBetween(t: int, day: int)
    requires day * Day <= t < (day + 1) * Day
    ensures DayOf(t) == day
  {
  }

  /** A reminder's text in a cell: cut to 15 characters and `...` when
      longer. */
  function Label(text: string): (r: string)
    ensures |text| <= 15 ==> r == text
    ensures |text| > 15 ==> |r| == 18 && r[..15] == text[..15] && r[15..] == "..."
  {
    if |text| > 15 then text[..15] + "..." else text
  }

  datatype Cell =
    | Leading(day: int)
    | Current(day: int, labels: seq<string>, more: nat)
    | Trailing(day: int)

  /** The cell of day `d`: the labels of its first two reminders and the
      number of the others. */
  function CurrentCell(year: int, month: int, reminders: seq<Reminder>, offset: int, d: int): (c: Cell)
    ensures c.Current? && c.day == d
    ensures |c.labels| == (if |CellReminders(year, month, reminders, offset, d)| < 2
                           then |CellReminders(year, month, reminders, offset, d)| else 2)
    ensures forall i :: 0 <= i < |c.labels| ==>
              c.labels[i] == Label(CellReminders(year, month, reminders, offset, d)[i].reminderText)
    ensures |c.labels| + c.more == |CellReminders(year, month, reminders, offset, d)|
  {
    var p := Preview(CellReminders(year, month, reminders, offset, d), 2);
    Current(d, seq(|p.0|, i requires 0 <= i < |p.0| => Label(p.0[i].reminderText)), p.1)
  }

  /** The reminders of day `d`'s cell: looked up from its local
      midnight. */
  function CellReminders(year: int, month: int, reminders: seq<Reminder>, offset: int, d: int): seq<Reminder> {
    RemindersOn(reminders, DateToDay(year, month, d) * Day, offset)
  }

  /** The number of cells before the first of the month, the month's
      length and the previous month's length. */
  function StartingDayOfWeek(year: int, month: int): int {
    PlanCalendar.FirstDayOfMonth(year, month)
  }

  function LastDayOfPrevMonth(year: int, month: int): (r: int)
    requires 0 <= month < 12
    ensures 28 <= r <= 31
  {
    var p := PlanCalendar.Prev(year, month);
    DaysInMonth(p.0, p.1)
  }

  /** The last `s` days of the previous month, oldest first. */
  function LeadingCells(s: nat, lastPrev: int): (r: seq<Cell>)
    ensures |r| == s
    ensures forall i :: 0 <= i < s ==> r[i] == Leading(lastPrev - s + 1 + i)
  {
    seq(s, i requires 0 <= i < s => Leading(lastPrev - s + 1 + i))
  }

  function CurrentCells(year: int, month: int, reminders: seq<Reminder>, offset: int, n: nat): (r: seq<Cell>)
    ensures |r| == n
    ensures forall i :: 0 <= i < n ==> r[i] == CurrentCell(year, month, reminders, offset, i + 1)
  {
    seq(n, i requires 0 <= i < n => CurrentCell(year, month, reminders, offset, i + 1))
  }

  /** The first `k` days of the next month. */
  function TrailingCells(k: nat): (r: seq<Cell>)
    ensures |r| == k
    ensures forall i :: 0 <= i < k ==> r[i] == Trailing(i + 1)
  {
    seq(k, i requires 0 <= i < k => Trailing(i + 1))
  }

  /** The first 35 of the cells `lead`, then `days`, then as many
      trailing days as fill 35 cells: the cells before the slice keep their
      places, whatever does not fit is cut, and the trailing cells count
      from 1. */
  function Grid35(lead: seq<Cell>, days: seq<Cell>): (r: seq<Cell>)
    ensures |r| == 35
    ensures forall i :: 0 <= i < |lead| && i < 35 ==> r[i] == lead[i]
    ensures forall k :: 0 <= k < |days| && |lead| + k < 35 ==> r[|lead| + k] == days[k]
    ensures forall i :: |lead| + |days| <= i < 35 ==> r[i] == Trailing(i - |lead| - |days| + 1)
  {
    var all := lead + days + TrailingCells(if 35 - |lead| - |days| > 0 then 35 - |lead| - |days| else 0);
    all[..35]
  }

  /** The grid as rendered for a month. */
  function MonthCells(year: int, month: int, reminders: seq<Reminder>, offset: int): seq<Cell>
    requires 0 <= month < 12
  {
    Grid35(LeadingCells(StartingDayOfWeek(year, month), LastDayOfPrevMonth(year, month)),
           CurrentCells(year, month, reminders, offset, DaysInMonth(year, month)))
  }

  /** A month of 31 days that starts on a Saturday (March 2025) loses its
      30th and 31st from the grid. */
  lemma MarchTwentyTwentyFiveLosesDays(reminders: seq<Reminder>, offset: int)
    ensures forall c :: c in MonthCells(2025, 2, reminders, offset) && c.Current? ==> c.day <= 29
  {
    MarchTwentyTwentyFive();
    var lead := LeadingCells(6, LastDayOfPrevMonth(2025, 2));
    var days := CurrentCells(2025, 2, reminders, offset, 31);
    var r := MonthCells(2025, 2, reminders, offset);
    assert r == Grid35(lead, days);
    forall i | 0 <= i < 35 ensures r[i].Current? ==> r[i].day <= 29 {
      if i < 6 {
        assert r[i] == lead[i];
      } else {
        assert r[i] == days[i - 6];
      }
    }
  }

  /** March 2025 starts on a Saturday and has 31 days. */
  lemma MarchTwentyTwentyFive()
    ensures StartingDayOfWeek(2025, 2) == 6 && DaysInMonth(2025, 2) == 31
  {
    assert 2 / 12 == 0 && 2 % 12 == 2;
    assert 2025 / 400 == 5 && 12 % 12 == 0 && 2 / 5 == 0 && 25 / 4 == 6 && 25 / 100 == 0;
    assert DateToDay(2025, 2, 1) == 20148;
    assert 20152 % 7 == 6;
  }

  /** Five rows, or six when the cells need them: `lead`, then `days`,
      then trailing days up to a whole number of weeks; on five rows it is
      the 35-cell grid. */
  function FullGrid(lead: seq<Cell>, days: seq<Cell>): (r: seq<Cell>)
    requires |lead| + |days| <= 42
    ensures |r| == (if |lead| + |days| <= 35 then 35 else 42)
    ensures |r| % 7 == 0
    ensures r[..|lead|] == lead && r[|lead|..|lead| + |days|] == days
    ensures |lead| + |days| <= 35 ==> r == Grid35(lead, days)
  {
    var trailing := TrailingCells(if |lead| + |days| <= 35 then 35 - |lead| - |days| else 42 - |lead| - |days|);
    var r := lead + days + trailing;
    assert r[..|lead|] == lead;
    assert r[|lead|..|lead| + |days|] == days;
    assert |lead| + |days| <= 35 ==> r[..35] == r;
    r
  }

  /** The corrected grid for a month: every day of the month has its
      cell. */
  function FullMonthCells(year: int, month: int, reminders: seq<Reminder>, offset: int): (r: seq<Cell>)
    requires 0 <= month < 12
    ensures |r| % 7 == 0 && |r| <= 42
    ensures forall d :: 1 <= d <= DaysInMonth(year, month) ==>
              CurrentCell(year, month, reminders, offset, d) in r
  {
    var lead := LeadingCells(StartingDayOfWeek(year, month), LastDayOfPrevMonth(year, month));
    var days := CurrentCells(year, month, reminders, offset, DaysInMonth(year, month));
    var r := FullGrid(lead, days);
    forall d | 1 <= d <= DaysInMonth(year, month) ensures CurrentCell(year, month, reminders, offset, d) in r {
      assert days[d - 1] == r[|lead|..|lead| + |days|][d - 1];
    }
    r
  }

  /** The note a reminder in the side panel opens, when it is present. */
  function NoteToOpen(notes: seq<NoteRef>, r: Reminder): (id: Option<string>)
    ensures id.None? <==> forall n :: n in notes ==> n.id != r.noteId
    ensures id.Some? ==> id.value == r.noteId
  {
    match FindIndex(notes, (n: NoteRef) => n.id == r.noteId)
    case None => None
    case Some(i) => Some(notes[i].id)
  }

  /** The calendar's state: the shown date (year, month index and day of
      the month), the selected date (a local time: the local midnight of a
      clicked cell, or the moment of `goToToday`) and the zone the page
      runs in. */
  class MonthView {
    var currentYear: int
    var currentMonth: int
    var currentDay: int
    var selected: Option<int>
    const zoneOffset: int

    predicate Valid()
      reads this
    {
      0 <= currentMonth < 12
    }

    /** The month of `now`, nothing selected. */
    constructor(now: int, offset: int)
      ensures currentYear == CivilFromDays(DayOf(now)).0 && currentMonth == CivilFromDays(DayOf(now)).1 - 1
      ensures currentDay == CivilFromDays(DayOf(now)).2 && selected.None? && zoneOffset == offset
      ensures Valid()
    {
      var c := CivilFromDays(DayOf(now));
      currentYear, currentMonth, currentDay := c.0, c.1 - 1, c.2;
      selected := None;
      zoneOffset := offset;
    }

    /** The side panel: the reminders on the selected date's UTC day, none
        without a selection. */
    function SelectedReminders(reminders: seq<Reminder>): (r: seq<Reminder>)
      reads this
      ensures selected.None? ==> r == []
      ensures selected.Some? ==> forall x :: x in r <==>
                (x in reminders && UtcDay(x.reminderTime, zoneOffset) == UtcDay(selected.value, zoneOffset))
      ensures selected.Some? ==> IsSubseq(r, reminders)
    {
      if selected.Some? then RemindersOn(reminders, selected.value, zoneOffset) else []
    }

    /** `goToPreviousMonth`: `new Date(y, m - 1, 1)`, whose month -1 rolls
        over into December of the year before. */
    method GoToPreviousMonth()
      modifies this
      requires Valid()
      ensures Valid()
      ensures (currentYear, currentMonth) == PlanCalendar.Prev(old(currentYear), old(currentMonth))
      ensures currentDay == 1 && selected == old(selected)
    {
      var target := currentMonth - 1;
      currentYear := currentYear + target / 12;
      currentMonth := target % 12;
      currentDay := 1;
    }

    /** `goToNextMonth`: `new Date(y, m + 1, 1)`, whose month 12 rolls over
        into January of the year after. */
    method GoToNextMonth()
      modifies this
      requires Valid()
      ensures Valid()
      ensures (currentYear, currentMonth) == PlanCalendar.Next(old(currentYear), old(currentMonth))
      ensures currentDay == 1 && selected == old(selected)
    {
      var target := currentMonth + 1;
      currentYear := currentYear + target / 12;
      currentMonth := target % 12;
      currentDay := 1;
    }

    /** `goToToday`: the month of `now`, and `now` selected. */
    method GoToToday(now: int)
      modifies this
      ensures currentYear == CivilFromDays(DayOf(now)).0 && currentMonth == CivilFromDays(DayOf(now)).1 - 1
      ensures currentDay == CivilFromDays(DayOf(now)).2 && selected == Some(now)
      ensures Valid()
    {
      var c := CivilFromDays(DayOf(now));
      currentYear, currentMonth, currentDay := c.0, c.1 - 1, c.2;
      selected := Some(now);
    }

    /** A click on the cell of local day `day`: when the selection falls on
        that day it clears, otherwise the cell's midnight becomes the
        selection. */
    method SelectDate(day: int)
      modifies this
      ensures old(selected).Some? && DayOf(old(selected).value) == day ==> selected.None?
      ensures !(old(selected).Some? && DayOf(old(selected).value) == day) ==> selected == Some(day * Day)
      ensures currentYear == old(currentYear) && currentMonth == old(currentMonth) && currentDay == old(currentDay)
    {
      selected := if selected.Some? && DayOf(selected.value) == day then None else Some(day * Day);
    }

    /** `renderCalendarCells`: the previous month's tail, the month's days,
        the next month's head, then the first 35 cells. */
    method RenderCalendarCells(reminders: seq<Reminder>) returns (cells: seq<Cell>)
      requires Valid()
      ensures cells == MonthCells(currentYear, currentMonth, reminders, zoneOffset)
    {
      var startingDayOfWeek := StartingDayOfWeek(currentYear, currentMonth);
      var daysInMonth := DaysInMonth(currentYear, currentMonth);
      var lastDayOfPrevMonth := LastDayOfPrevMonth(currentYear, currentMonth);
      ghost var lead := LeadingCells(startingDayOfWeek, lastDayOfPrevMonth);
      cells := [];
      var i := startingDayOfWeek - 1;
      while i >= 0
        invariant -1 <= i < startingDayOfWeek
        invariant cells == lead[..startingDayOfWeek - 1 - i]
      {
        assert lead[..startingDayOfWeek - i] == lead[..startingDayOfWeek - 1 - i] + [Leading(lastDayOfPrevMonth - i)];
        cells := cells + [Leading(lastDayOfPrevMonth - i)];
        i := i - 1;
      }
      assert cells == lead;
      cells := PushDays(cells, currentYear, currentMonth, reminders, zoneOffset, daysInMonth);
      var totalCells := |cells|;
      var remainingCells := 35 - totalCells;
      var day := 1;
      ghost var head := cells;
      while day <= remainingCells
        invariant 1 <= day <= (if remainingCells > 0 then remainingCells + 1 else 1)
        invariant cells == head + TrailingCells(day - 1)
      {
        assert TrailingCells(day) == TrailingCells(day - 1) + [Trailing(day)];
        cells := cells + [Trailing(day)];
        day := day + 1;
      }
      assert cells == lead + CurrentCells(currentYear, currentMonth, reminders, zoneOffset, daysInMonth)
                      + TrailingCells(if 35 - startingDayOfWeek - daysInMonth > 0 then 35 - startingDayOfWeek - daysInMonth else 0);
      cells := cells[..35];
    }
  }

  /** The loop over the days of the month. */
  method PushDays(cells: seq<Cell>, year: int, month: int, reminders: seq<Reminder>, offset: int, daysInMonth: nat)
    returns (cells': seq<Cell>)
    ensures cells' == cells + CurrentCells(year, month, reminders, offset, daysInMonth)
  {
    cells' := cells;
    var day := 1;
    while day <= daysInMonth
      invariant 1 <= day <= daysInMonth + 1
      invariant cells' == cells + CurrentCells(year, month, reminders, offset, day - 1)
    {
      assert CurrentCells(year, month, reminders, offset, day)
             == CurrentCells(year, month, reminders, offset, day - 1) + [CurrentCell(year, month, reminders, offset, day)];
      cells' := cells' + [CurrentCell(year, month, reminders, offset, day)];
      day := day + 1;
    }
  }
}
