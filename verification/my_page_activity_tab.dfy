/** The activity heat map of the stand-alone profile page: the same
    weekday rows as the dashboard's, except that the leading blanks are
    counted from a configurable first day of the week
    (`START_DAY_OF_WEEK`, Sunday) and placed in rows
    `(START_DAY_OF_WEEK + i) % 7`.  The palette, the day placement and the
    end padding are those of `DashboardActivityTab`. */
module MyPageActivityTab {
  import opened Common
  import opened DashboardActivityTab

  const StartDayOfWeek: int := 0

  /** `(firstDayIndex - START_DAY_OF_WEEK + 7) % 7`. */
  function DaysToPad(firstDayIndex: int, start: int): (r: int)
    requires 0 <= firstDayIndex < 7 && 0 <= start < 7
    ensures 0 <= r < 7
    ensures (start + r) % 7 == firstDayIndex
  {
    (firstDayIndex - start + 7) % 7
  }

  /** Leading blanks of row `w`: one when some `i < pad` has
      `(start + i) % 7 == w`. */
  function StartLeads(pad: int, start: int): (r: seq<nat>)
    requires 0 <= pad < 7 && 0 <= start < 7
    ensures |r| == 7
    ensures forall w :: 0 <= w < 7 ==> r[w] <= 1
  {
    seq(7, w requires 0 <= w < 7 => if (w - start + 7) % 7 < pad then 1 else 0)
  }

  /** The row that the `i`-th leading blank goes to. */
  function PadRow(start: int, i: int): int { (start + i) % 7 }

  /** The pad loop puts exactly one blank into each of the `pad` rows
      that precede the first day's row, counting from `start`, and no
      blank anywhere else. */
  lemma StartLeadsCount(pad: int, start: int)
    requires 0 <= pad < 7 && 0 <= start < 7
    ensures forall i :: 0 <= i < pad ==> StartLeads(pad, start)[PadRow(start, i)] == 1
    ensures forall w :: 0 <= w < 7 && StartLeads(pad, start)[w] == 1 ==>
              exists i :: 0 <= i < pad && PadRow(start, i) == w
  {
    forall w | 0 <= w < 7 && StartLeads(pad, start)[w] == 1
      ensures exists i :: 0 <= i < pad && PadRow(start, i) == w
    {
      var i := (w - start + 7) % 7;
      assert PadRow(start, i) == w;
    }
  }

  /** The grid, for a non-empty series. */
  function StartGrid(data: seq<ActivityData>, start: int): seq<seq<Cell>>
    requires data != [] && 0 <= start < 7
  {
    PadRows(RowsWith(StartLeads(DaysToPad(Weekday(data[0].date), start), start), data))
  }

  /** With weeks starting on Sunday the layout is the dashboard's. */
  lemma SundayStartIsDashboardGrid(data: seq<ActivityData>)
    requires data != []
    ensures StartGrid(data, StartDayOfWeek) == Grid(data)
  {
    var first := Weekday(data[0].date);
    assert StartLeads(DaysToPad(first, 0), 0) == Leads(data);
  }

  /** `renderActivityHeatmap`: `None` for the empty state, otherwise the
      seven rows built in place. */
  method WeekRows(data: seq<ActivityData>) returns (grid: Option<seq<seq<Cell>>>)
    ensures grid.None? <==> AllZero(data)
    ensures grid.Some? ==> data != [] && grid.value == StartGrid(data, StartDayOfWeek)
  {
    if forall k :: 0 <= k < |data| ==> data[k].count == 0 {
      return None;
    }
    var rows := new seq<Cell>[7](_ => []);
    var pad := DaysToPad(Weekday(data[0].date), StartDayOfWeek);
    for i := 0 to pad
      invariant forall w :: 0 <= w < 7 ==>
                  rows[w] == Repeat(Blank, if (w - StartDayOfWeek + 7) % 7 < i then 1 else 0)
    {
      var w := PadRow(StartDayOfWeek, i);
      rows[w] := rows[w] + [Blank];
    }
    PlaceDays(rows, data, StartLeads(pad, StartDayOfWeek));
    PadEnd(rows);
    grid := Some(rows[..]);
  }
}
