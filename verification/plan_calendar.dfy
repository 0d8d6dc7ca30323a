/** The plan calendar (src/components/features/calendar.tsx): a month view
    whose displayed month and year move with the arrows, a grid of blank
    cells up to the month's first weekday followed by the days of the month
    cut into rows of seven, and the plans that start on a day. Dates are
    local day numbers; a month is a month index 0..11 as `getMonth()`
    returns it. */
module PlanCalendar {
  import opened Common

  datatype Priority = Low | Medium | High

  datatype Plan = Plan(id: string, title: string, description: string, startDate: int, endDate: int,
                       completed: bool, priority: Priority, tags: seq<string>)

  /** Months counted from year 0, so that adjacent months differ by one. */
  function MonthNumber(year: int, month: int): int {
    12 * year + month
  }

  /** `prevMonth`: January goes to December of the year before. */
  function Prev(year: int, month: int): (r: (int, int))
    requires 0 <= month < 12
    ensures 0 <= r.1 < 12
    ensures month == 0 ==> r == (year - 1, 11)
    ensures month != 0 ==> r == (year, month - 1)
  {
    if month == 0 then (year - 1, 11) else (year, month - 1)
  }

  /** `nextMonth`: December goes to January of the year after. */
  function Next(year: int, month: int): (r: (int, int))
    requires 0 <= month < 12
    ensures 0 <= r.1 < 12
    ensures month == 11 ==> r == (year + 1, 0)
    ensures month != 11 ==> r == (year, month + 1)
  {
    if month == 11 then (year + 1, 0) else (year, month + 1)
  }

  /** The arrows move exactly one month, and each undoes the other. */
  lemma ArrowsAreInverse(year: int, month: int)
    requires 0 <= month < 12
    ensures MonthNumber(Next(year, month).0, Next(year, month).1) == MonthNumber(year, month) + 1
    ensures MonthNumber(Prev(year, month).0, Prev(year, month).1) == MonthNumber(year, month) - 1
    ensures Prev(Next(year, month).0, Next(year, month).1) == (year, month)
    ensures Next(Prev(year, month).0, Prev(year, month).1) == (year, month)
  {
  }

  /** `getFirstDayOfMonth`: the weekday of the first of the month. */
  function FirstDayOfMonth(year: int, month: int): (r: int)
    ensures 0 <= r < 7
  {
    Weekday(DateToDay(year, month, 1))
  }

  /** Day `d` of the month falls `d - 1` weekdays after the first, so the
      grid, which starts with `FirstDayOfMonth` blanks, puts every day in
      its weekday's column. */
  lemma ColumnIsWeekday(year: int, month: int, d: int)
    requires d >= 1
    ensures Weekday(DateToDay(year, month, d)) == (FirstDayOfMonth(year, month) + d - 1) % 7
  {
    DayOfMonthOffset(year, month, d);
    WeekdayShift(DateToDay(year, month, 1), d - 1);
  }

  lemma DayOfMonthOffset(year: int, month: int, d: int)
    ensures DateToDay(year, month, d) == DateToDay(year, month, 1) + (d - 1)
  {
  }

  /** `k` days later is `k` weekdays later. */
  lemma WeekdayShift(first: int, k: nat)
    ensures Weekday(first + k) == (Weekday(first) + k) % 7
  {
    var q := (first + 4) / 7;
    assert first + 4 == 7 * q + Weekday(first);
    assert first + k + 4 == 7 * q + (Weekday(first) + k);
  }

  function StartsOn(day: int): Plan -> bool {
    (p: Plan) => DayOf(p.startDate) == day
  }

  /** `getDatePlans`: the plans starting on the local day `day`, in list
      order (the end date plays no part). */
  function GetDatePlans(plans: seq<Plan>, day: int): (r: seq<Plan>)
    ensures forall p :: p in r <==> p in plans && DayOf(p.startDate) == day
    ensures IsSubseq(r, plans)
  {
    FilterSubseq(plans, StartsOn(day));
    Filter(plans, StartsOn(day))
  }

  /** A grid cell: a blank, or a day of the month with the first two of its
      plans and the number of the others. */
  datatype Cell = Blank | DayCell(day: int, shown: seq<Plan>, more: nat)

  /** The cell of day `d` of the month. */
  function DayCellFor(year: int, month: int, plans: seq<Plan>, d: int): (c: Cell)
    ensures c.DayCell? && c.day == d
    ensures |c.shown| <= |GetDatePlans(plans, DateToDay(year, month, d))| && |c.shown| <= 2
    ensures c.shown == GetDatePlans(plans, DateToDay(year, month, d))[..|c.shown|]
    ensures |c.shown| + c.more == |GetDatePlans(plans, DateToDay(year, month, d))|
  {
    var p := Preview(GetDatePlans(plans, DateToDay(year, month, d)), 2);
    DayCell(d, p.0, p.1)
  }

  /** The month's cells in reading order: `firstDay` blanks, then the days
      1..daysInMonth. */
  function Grid(year: int, month: int, plans: seq<Plan>): (r: seq<Cell>)
    requires 0 <= month < 12
    ensures |r| == FirstDayOfMonth(year, month) + DaysInMonth(year, month)
    ensures forall i :: 0 <= i < FirstDayOfMonth(year, month) ==> r[i] == Blank
    ensures forall d :: 1 <= d <= DaysInMonth(year, month) ==>
              r[FirstDayOfMonth(year, month) + d - 1] == DayCellFor(year, month, plans, d)
  {
    var firstDay := FirstDayOfMonth(year, month);
    Repeat(Blank, firstDay)
      + seq(DaysInMonth(year, month), i requires 0 <= i => DayCellFor(year, month, plans, i + 1))
  }

  /** The rows laid end to end. */
  function Flatten(rows: seq<seq<Cell>>): seq<Cell> {
    if rows == [] then [] else Flatten(rows[..|rows| - 1]) + rows[|rows| - 1]
  }

  lemma FlattenSnoc(rows: seq<seq<Cell>>, row: seq<Cell>)
    ensures Flatten(rows + [row]) == Flatten(rows) + row
  {
    assert (rows + [row])[..|rows|] == rows;
  }

  /** `rows` and the open row `cells` hold the first `n` cells of `grid`,
      every closed row holding seven. */
  ghost predicate Chunked(rows: seq<seq<Cell>>, cells: seq<Cell>, grid: seq<Cell>, n: nat) {
    n <= |grid| && Flatten(rows) + cells == grid[..n]
    && |cells| < 7 && 7 * |rows| + |cells| == n
    && forall k :: 0 <= k < |rows| ==> |rows[k]| == 7
  }

  /** Pushing the next cell, and closing the row when the count reaches a
      multiple of seven, keeps the rows chunked. */
  lemma PushCell(rows: seq<seq<Cell>>, cells: seq<Cell>, grid: seq<Cell>, n: nat)
    requires Chunked(rows, cells, grid, n) && n < |grid|
    ensures (n + 1) % 7 == 0 ==> Chunked(rows + [cells + [grid[n]]], [], grid, n + 1)
    ensures (n + 1) % 7 != 0 ==> Chunked(rows, cells + [grid[n]], grid, n + 1)
  {
    assert grid[..n + 1] == grid[..n] + [grid[n]];
    FlattenSnoc(rows, cells + [grid[n]]);
    assert (n + 1) % 7 == 0 <==> |cells| == 6;
  }

  /** The calendar's state: the month shown. */
  class MonthView {
    var currentMonth: int
    var currentYear: int

    predicate Valid()
      reads this
    {
      0 <= currentMonth < 12
    }

    /** The month of the selected date (a local day number). */
    constructor(selectedDate: int)
      ensures currentYear == CivilFromDays(selectedDate).0 && currentMonth == CivilFromDays(selectedDate).1 - 1
      ensures Valid()
    {
      var c := CivilFromDays(selectedDate);
      currentMonth := c.1 - 1;
      currentYear := c.0;
    }

    /** `prevMonth`. */
    method PrevMonth()
      modifies this
      requires Valid()
      ensures Valid()
      ensures (currentYear, currentMonth) == Prev(old(currentYear), old(currentMonth))
    {
      if currentMonth == 0 {
        currentMonth := 11;
        currentYear := currentYear - 1;
      } else {
        currentMonth := currentMonth - 1;
      }
    }

    /** `nextMonth`. */
    method NextMonth()
      modifies this
      requires Valid()
      ensures Valid()
      ensures (currentYear, currentMonth) == Next(old(currentYear), old(currentMonth))
    {
      if currentMonth == 11 {
        currentMonth := 0;
        currentYear := currentYear + 1;
      } else {
        currentMonth := currentMonth + 1;
      }
    }

    /** The rows `renderCalendar` builds: laid end to end they are the
        month's grid; every row but the last holds seven cells, and none is
        empty. */
    method RenderCalendar(plans: seq<Plan>) returns (rows: seq<seq<Cell>>)
      requires Valid()
      ensures Flatten(rows) == Grid(currentYear, currentMonth, plans)
      ensures forall k :: 0 <= k < |rows| ==> 0 < |rows[k]| <= 7
      ensures forall k :: 0 <= k < |rows| - 1 ==> |rows[k]| == 7
    {
      var firstDay := FirstDayOfMonth(currentYear, currentMonth);
      var daysInMonth := DaysInMonth(currentYear, currentMonth);
      ghost var grid := Grid(currentYear, currentMonth, plans);
      var cells := Blanks(grid, firstDay);
      var open;
      rows, open := ChunkDays(currentYear, currentMonth, plans, grid, firstDay, daysInMonth, cells);
      assert grid[..firstDay + daysInMonth] == grid;
      if |open| > 0 {
        FlattenSnoc(rows, open);
        rows := rows + [open];
      }
    }
  }

  /** The first loop of `renderCalendar`: the blank cells. */
  method Blanks(ghost grid: seq<Cell>, firstDay: int) returns (cells: seq<Cell>)
    requires 0 <= firstDay <= |grid| && forall i :: 0 <= i < firstDay ==> grid[i] == Blank
    ensures cells == grid[..firstDay]
  {
    cells := [];
    var i := 0;
    while i < firstDay
      invariant 0 <= i <= firstDay
      invariant cells == grid[..i]
    {
      assert grid[..i + 1] == grid[..i] + [Blank];
      cells := cells + [Blank];
      i := i + 1;
    }
  }

  /** The second loop of `renderCalendar`: each day's cell is pushed, and
      the row is closed whenever the cell count reaches a multiple of
      seven. */
  method ChunkDays(year: int, month: int, plans: seq<Plan>, ghost grid: seq<Cell>, firstDay: int, daysInMonth: int,
                   cells: seq<Cell>)
    returns (rows: seq<seq<Cell>>, open: seq<Cell>)
    requires 0 <= firstDay < 7 && 0 <= daysInMonth && |grid| == firstDay + daysInMonth
    requires forall d :: 1 <= d <= daysInMonth ==> grid[firstDay + d - 1] == DayCellFor(year, month, plans, d)
    requires cells == grid[..firstDay]
    ensures Chunked(rows, open, grid, firstDay + daysInMonth)
  {
    rows := [];
    open := cells;
    assert Flatten(rows) == [];
    var day := 1;
    while day <= daysInMonth
      invariant 1 <= day <= daysInMonth + 1
      invariant Chunked(rows, open, grid, firstDay + day - 1)
    {
      var cell := DayCellFor(year, month, plans, day);
      assert grid[firstDay + day - 1] == cell;
      PushCell(rows, open, grid, firstDay + day - 1);
      open := open + [cell];
      if (firstDay + day) % 7 == 0 {
        rows := rows + [open];
        open := [];
      }
      day := day + 1;
    }
  }
}
