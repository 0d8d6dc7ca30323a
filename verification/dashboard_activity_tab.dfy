/** The activity heat map of the dashboard's profile page: the level
    palette and the seven weekday rows (Sunday first) that the 365-day
    series is laid out in, padded with blank cells at the start of the
    first week and at the end of every row. */
module DashboardActivityTab {
  import opened Common

  datatype ActivityData = ActivityData(date: int, count: nat, level: nat)

  /** A grid cell: a padding cell (`{ date: '', count: 0, level: 0 }`) or
      one day of the series. */
  datatype Cell = Blank | Filled(day: ActivityData)

  /** `colors[level] || 'bg-muted'`. */
  function LevelColor(level: int): (r: string)
    ensures !(1 <= level <= 4) ==> r == "bg-muted"
    ensures 1 <= level <= 4 ==> r != "bg-muted"
  {
    if level == 1 then "bg-green-200"
    else if level == 2 then "bg-green-300"
    else if level == 3 then "bg-green-400"
    else if level == 4 then "bg-green-500"
    else "bg-muted"
  }

  /** Different levels in 1..4 get different colours. */
  lemma LevelColorInjective(a: int, b: int)
    requires 1 <= a <= 4 && 1 <= b <= 4 && a != b
    ensures LevelColor(a) != LevelColor(b)
  {
  }

  /** `activityData.every((d) => d.count === 0)`: the empty state. */
  predicate AllZero(data: seq<ActivityData>) {
    forall k :: 0 <= k < |data| ==> data[k].count == 0
  }

  /** The days of the series that fall on weekday `w`, as cells, in
      series order. */
  function RowCells(data: seq<ActivityData>, w: int): seq<Cell> {
    if data == [] then []
    else
      var last := data[|data| - 1];
      RowCells(data[..|data| - 1], w) + (if Weekday(last.date) == w then [Filled(last)] else [])
  }

  /** Cells of rows `0..n-1` together. */
  function CellsInRows(data: seq<ActivityData>, n: nat): nat {
    if n == 0 then 0 else CellsInRows(data, n - 1) + |RowCells(data, n - 1)|
  }

  /** Every day lands in exactly one weekday row: the seven rows hold
      as many day cells as the series has days. */
  lemma {:induction false} RowsPartition(data: seq<ActivityData>)
    ensures CellsInRows(data, 7) == |data|
  {
    if data != [] {
      var init := data[..|data| - 1];
      var d := data[|data| - 1];
      RowsPartition(init);
      CellsInRowsSnoc(init, d, 7);
      assert data == init + [d];
    } else {
      CellsInRowsNil(7);
    }
  }

  lemma {:induction false} CellsInRowsNil(n: nat)
    ensures CellsInRows([], n) == 0
  {
    if n > 0 {
      CellsInRowsNil(n - 1);
    }
  }

  lemma {:induction false} CellsInRowsSnoc(init: seq<ActivityData>, d: ActivityData, n: nat)
    requires n <= 7
    ensures CellsInRows(init + [d], n) == CellsInRows(init, n) + (if Weekday(d.date) < n then 1 else 0)
  {
    assert (init + [d])[..|init|] == init;
    if n > 0 {
      CellsInRowsSnoc(init, d, n - 1);
    }
  }

  /** A row before its end padding: its leading blanks, then its days. */
  function Unpadded(lead: nat, data: seq<ActivityData>, w: int): seq<Cell> {
    Repeat(Blank, lead) + RowCells(data, w)
  }

  /** `Math.max(...rows.map((week) => week.length))`. */
  function MaxLen(rows: seq<seq<Cell>>): (m: nat)
    ensures forall r :: 0 <= r < |rows| ==> |rows[r]| <= m
    ensures rows != [] ==> exists r :: 0 <= r < |rows| && |rows[r]| == m
  {
    if rows == [] then 0
    else
      var m0 := MaxLen(rows[..|rows| - 1]);
      var last := |rows[|rows| - 1]|;
      if last > m0 then last else m0
  }

  /** The rows padded at the end with blanks up to the longest one. */
  function PadRows(rows: seq<seq<Cell>>): (r: seq<seq<Cell>>)
    ensures |r| == |rows|
    ensures forall k :: 0 <= k < |r| ==> |r[k]| == MaxLen(rows)
  {
    seq(|rows|, k requires 0 <= k < |rows| => rows[k] + Repeat(Blank, MaxLen(rows) - |rows[k]|))
  }

  /** Leading blanks of row `w`: one for each weekday before the first
      day's (`for (i = 0; i < daysToPad; i++) rows[i].push(blank)`). */
  function Lead(data: seq<ActivityData>, w: int): (r: nat)
    requires data != []
    ensures r == 1 <==> 0 <= w < Weekday(data[0].date)
    ensures r <= 1
  {
    if 0 <= w < Weekday(data[0].date) then 1 else 0
  }

  function Leads(data: seq<ActivityData>): (r: seq<nat>)
    requires data != []
    ensures |r| == 7
  {
    seq(7, w requires 0 <= w < 7 => Lead(data, w))
  }

  /** The seven rows before end padding, given each row's leading blanks. */
  function RowsWith(leads: seq<nat>, data: seq<ActivityData>): (r: seq<seq<Cell>>)
    requires |leads| == 7
    ensures |r| == 7
  {
    seq(7, w requires 0 <= w < 7 => Unpadded(leads[w], data, w))
  }

  function Rows(data: seq<ActivityData>): seq<seq<Cell>>
    requires data != []
  {
    RowsWith(Leads(data), data)
  }

  /** The rows `renderActivityHeatmap` builds. */
  function Grid(data: seq<ActivityData>): seq<seq<Cell>>
    requires data != []
  {
    PadRows(Rows(data))
  }

  /** `renderActivityHeatmap`: `None` for the empty state, otherwise the
      seven rows, built in place with `push`. */
  method WeekRows(data: seq<ActivityData>) returns (grid: Option<seq<seq<Cell>>>)
    ensures grid.None? <==> AllZero(data)
    ensures grid.Some? ==> data != [] && grid.value == Grid(data)
  {
    if forall k :: 0 <= k < |data| ==> data[k].count == 0 {
      return None;
    }
    var rows := new seq<Cell>[7](_ => []);
    PadStart(rows, data);
    PlaceDays(rows, data, Leads(data));
    PadEnd(rows);
    grid := Some(rows[..]);
  }

  /** The leading blanks of the first week. */
  method PadStart(rows: array<seq<Cell>>, data: seq<ActivityData>)
    requires rows.Length == 7 && data != []
    requires forall w :: 0 <= w < 7 ==> rows[w] == []
    modifies rows
    ensures forall w :: 0 <= w < 7 ==> rows[w] == Repeat(Blank, Leads(data)[w])
  {
    var daysToPad := Weekday(data[0].date);
    for i := 0 to daysToPad
      invariant forall w :: 0 <= w < 7 ==> rows[w] == Repeat(Blank, if w < i then 1 else 0)
    {
      rows[i] := rows[i] + [Blank];
    }
  }

  /** `activityData.forEach((day) => rows[getDay(day)].push(day))`. */
  method PlaceDays(rows: array<seq<Cell>>, data: seq<ActivityData>, ghost leads: seq<nat>)
    requires rows.Length == 7 && |leads| == 7
    requires forall w :: 0 <= w < 7 ==> rows[w] == Repeat(Blank, leads[w])
    modifies rows
    ensures rows[..] == RowsWith(leads, data)
  {
    for k := 0 to |data|
      invariant forall w :: 0 <= w < 7 ==> rows[w] == Unpadded(leads[w], data[..k], w)
    {
      assert data[..k + 1][..k] == data[..k];
      var dayOfWeek := Weekday(data[k].date);
      rows[dayOfWeek] := rows[dayOfWeek] + [Filled(data[k])];
    }
    assert data[..|data|] == data;
  }

  /** Every row is filled with blanks up to the longest row. */
  method PadEnd(rows: array<seq<Cell>>)
    modifies rows
    ensures rows[..] == PadRows(old(rows[..]))
  {
    ghost var unpadded := rows[..];
    var maxWeeks := MaxLen(rows[..]);
    for w := 0 to rows.Length
      invariant forall v :: 0 <= v < w ==> rows[v] == PadRows(unpadded)[v]
      invariant forall v :: w <= v < rows.Length ==> rows[v] == unpadded[v]
    {
      while |rows[w]| < maxWeeks
        invariant |unpadded[w]| <= |rows[w]| <= maxWeeks
        invariant rows[w] == unpadded[w] + Repeat(Blank, |rows[w]| - |unpadded[w]|)
        invariant forall v :: 0 <= v < w ==> rows[v] == PadRows(unpadded)[v]
        invariant forall v :: w < v < rows.Length ==> rows[v] == unpadded[v]
        decreases maxWeeks - |rows[w]|
      {
        RepeatSnoc(Blank, |rows[w]| - |unpadded[w]|);
        rows[w] := rows[w] + [Blank];
      }
    }
  }

  lemma {:induction false} RepeatSnoc<T>(x: T, n: nat)
    ensures Repeat(x, n) + [x] == Repeat(x, n + 1)
  {
    if n > 0 {
      RepeatSnoc(x, n - 1);
    }
  }

  /** All seven rows of the grid have one common length, which is the
      length of the longest unpadded row; each row is its leading blank
      (if any), its weekday's days in series order, then blanks. */
  lemma GridFacts(data: seq<ActivityData>)
    requires data != []
    ensures |Grid(data)| == 7
    ensures forall w :: 0 <= w < 7 ==> |Grid(data)[w]| == |Grid(data)[0]|
    ensures forall w :: 0 <= w < 7 ==>
              |Rows(data)[w]| <= |Grid(data)[0]| &&
              Grid(data)[w] == Repeat(Blank, Leads(data)[w]) + RowCells(data, w)
                               + Repeat(Blank, |Grid(data)[0]| - |Rows(data)[w]|)
    ensures exists w :: 0 <= w < 7 && |Rows(data)[w]| == |Grid(data)[0]|
  {
    var rows := Rows(data);
    var g := Grid(data);
    var m := MaxLen(rows);
    assert |g| == 7 && |g[0]| == m;
    forall w | 0 <= w < 7
      ensures |g[w]| == m && |rows[w]| <= m
      ensures g[w] == Repeat(Blank, Leads(data)[w]) + RowCells(data, w) + Repeat(Blank, m - |rows[w]|)
    {
      assert g[w] == rows[w] + Repeat(Blank, m - |rows[w]|);
      assert rows[w] == Repeat(Blank, Leads(data)[w]) + RowCells(data, w);
    }
    assert exists w :: 0 <= w < 7 && |rows[w]| == m;
  }
}
