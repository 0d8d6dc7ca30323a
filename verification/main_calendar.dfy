/** The main dashboard calendar (src/components/features/dashboard/main/calendar.tsx):
    every note's reminders grouped by their local day, the holidays of the
    shown year, a grid of whole weeks from the Sunday before the first of
    the month to the Saturday after its last day, the selected day that a
    second click clears, and the month arrows. Dates are local day numbers;
    the shown date is kept as its year, month index and day of the month. */
module MainCalendar {
  import opened Common
  import PlanCalendar

  datatype Reminder = Reminder(id: string, reminderText: string, reminderTime: int, completed: bool)

  datatype Note = Note(id: string, title: string, reminders: Option<seq<Reminder>>)

  /** `{ ...reminder, note }`. */
  datatype Event = Event(reminder: Reminder, note: Note)

  function EventDay(e: Event): int {
    DayOf(e.reminder.reminderTime)
  }

  /** One note's reminders as events, in order. */
  function NoteEvents(n: Note): (r: seq<Event>)
    ensures |r| == |OrEmpty(n.reminders)|
    ensures forall i :: 0 <= i < |r| ==> r[i] == Event(OrEmpty(n.reminders)[i], n)
  {
    var rs := OrEmpty(n.reminders);
    seq(|rs|, i requires 0 <= i < |rs| => Event(rs[i], n))
  }

  /** `x || []`. */
  function OrEmpty<T>(o: Option<seq<T>>): seq<T> {
    if o.Some? then o.value else []
  }

  /** The events in the order the `forEach` loops visit them. */
  function AllEvents(notes: seq<Note>): seq<Event> {
    if notes == [] then [] else AllEvents(notes[..|notes| - 1]) + NoteEvents(notes[|notes| - 1])
  }

  function OnDay(day: int): Event -> bool {
    (e: Event) => EventDay(e) == day
  }

  /** The map after `eventMap.get(day).push(e)` for each event in turn. */
  function Grouped(events: seq<Event>): map<int, seq<Event>> {
    if events == [] then map[]
    else
      var m := Grouped(events[..|events| - 1]);
      var e := events[|events| - 1];
      m[EventDay(e) := (if EventDay(e) in m then m[EventDay(e)] else []) + [e]]
  }

  /** Every event is filed under its own day, and a day's list is exactly
      that day's events in visiting order; no day has an empty list. */
  lemma {:induction false} GroupedFacts(events: seq<Event>)
    ensures forall e :: e in events ==> EventDay(e) in Grouped(events)
    ensures forall k :: k in Grouped(events) ==> Grouped(events)[k] == Filter(events, OnDay(k))
    ensures forall k :: k in Grouped(events) ==> Grouped(events)[k] != []
  {
    if events != [] {
      var init := events[..|events| - 1];
      var e := events[|events| - 1];
      assert events == init + [e];
      GroupedFacts(init);
      var m := Grouped(init);
      forall k | k in Grouped(events) ensures Grouped(events)[k] == Filter(events, OnDay(k)) {
        FilterSnoc(init, e, OnDay(k));
        if k == EventDay(e) && k !in m {
          FilterNone(init, OnDay(k));
        }
      }
    }
  }

  /** Each event lies under exactly one key: its own day. */
  lemma ExactlyOneKey(events: seq<Event>, e: Event, k: int)
    requires e in events && k in Grouped(events)
    ensures e in Grouped(events)[k] <==> k == EventDay(e)
  {
    GroupedFacts(events);
    FilterSubseq(events, OnDay(k));
  }

  /** The days of the events, in visiting order. */
  function EventDays(events: seq<Event>): (r: seq<int>)
    ensures |r| == |events| && forall i :: 0 <= i < |events| ==> r[i] == EventDay(events[i])
  {
    seq(|events|, i requires 0 <= i < |events| => EventDay(events[i]))
  }

  /** The sizes of the lists under `keys`, added up. */
  function TotalSize(keys: seq<int>, m: map<int, seq<Event>>): nat
    requires forall k :: k in keys ==> k in m
  {
    if keys == [] then 0
    else
      var last := keys[|keys| - 1];
      assert last in keys;
      TotalSize(keys[..|keys| - 1], m) + |m[last]|
  }

  lemma {:induction false} TotalSizeAgree(keys: seq<int>, m: map<int, seq<Event>>, m': map<int, seq<Event>>)
    requires forall k :: k in keys ==> k in m && k in m' && m[k] == m'[k]
    ensures TotalSize(keys, m) == TotalSize(keys, m')
  {
    if keys != [] {
      TotalSizeAgree(keys[..|keys| - 1], m, m');
    }
  }

  /** Adding one event to the list of a key that occurs once adds one to
      the total. */
  lemma {:induction false} TotalSizeBump(keys: seq<int>, m: map<int, seq<Event>>, d: int, e: Event)
    requires forall k :: k in keys ==> k in m
    requires NoDups(keys) && d in keys
    ensures TotalSize(keys, m[d := m[d] + [e]]) == TotalSize(keys, m) + 1
  {
    var init := keys[..|keys| - 1];
    var last := keys[|keys| - 1];
    if last == d {
      assert d !in init;
      TotalSizeAgree(init, m, m[d := m[d] + [e]]);
    } else {
      assert d in init;
      TotalSizeBump(init, m, d, e);
    }
  }

  /** The keys of the grouping are exactly the days of the events. */
  lemma DaysAreKeys(events: seq<Event>)
    ensures forall k :: k in Grouped(events) <==> k in Dedupe(EventDays(events))
  {
    GroupedFacts(events);
    forall k ensures k in Grouped(events) <==> k in EventDays(events) {
      if k in Grouped(events) {
        var x := Grouped(events)[k][0];
        assert x in Filter(events, OnDay(k));
        var i :| 0 <= i < |events| && events[i] == x;
        assert EventDays(events)[i] == k;
      }
      if k in EventDays(events) {
        var i :| 0 <= i < |events| && EventDays(events)[i] == k;
        assert events[i] in events;
      }
    }
  }

  /** Grouping one more event. */
  lemma GroupedSnoc(init: seq<Event>, e: Event)
    ensures Grouped(init + [e])
            == Grouped(init)[EventDay(e) := (if EventDay(e) in Grouped(init) then Grouped(init)[EventDay(e)] else []) + [e]]
  {
    assert (init + [e])[..|init|] == init;
  }

  /** A new day adds a key with a one-event list. */
  lemma NewDayTotal(keys: seq<int>, m: map<int, seq<Event>>, d: int, e: Event)
    requires forall k :: k in keys ==> k in m
    requires d !in keys
    ensures forall k :: k in keys + [d] ==> k in m[d := [e]]
    ensures TotalSize(keys + [d], m[d := [e]]) == TotalSize(keys, m) + 1
  {
    assert (keys + [d])[..|keys|] == keys;
    TotalSizeAgree(keys, m, m[d := [e]]);
  }

  /** Grouping loses and duplicates nothing: the lists under the distinct
      days add up to the number of events. */
  lemma {:induction false} GroupedTotal(events: seq<Event>)
    ensures forall k :: k in Dedupe(EventDays(events)) ==> k in Grouped(events)
    ensures TotalSize(Dedupe(EventDays(events)), Grouped(events)) == |events|
  {
    DaysAreKeys(events);
    if events != [] {
      var init := events[..|events| - 1];
      var e := events[|events| - 1];
      assert events == init + [e];
      var d := EventDay(e);
      GroupedTotal(init);
      DaysAreKeys(init);
      var keys := Dedupe(EventDays(init));
      var m := Grouped(init);
      GroupedSnoc(init, e);
      assert EventDays(events) == EventDays(init) + [d];
      DedupeSnoc(EventDays(init), d);
      if d in keys {
        TotalSizeBump(keys, m, d, e);
      } else {
        assert [] + [e] == [e];
        NewDayTotal(keys, m, d, e);
      }
    }
  }

  /** The first `eventMap` loop: one note's reminders. */
  method AddNoteEvents(eventMap: map<int, seq<Event>>, note: Note, ghost seen: seq<Event>)
    returns (eventMap': map<int, seq<Event>>)
    requires eventMap == Grouped(seen)
    ensures eventMap' == Grouped(seen + NoteEvents(note))
  {
    eventMap' := eventMap;
    var reminders := OrEmpty(note.reminders);
    var j := 0;
    assert seen + NoteEvents(note)[..0] == seen;
    while j < |reminders|
      invariant 0 <= j <= |reminders|
      invariant eventMap' == Grouped(seen + NoteEvents(note)[..j])
    {
      var enriched := Event(reminders[j], note);
      var dateString := DayOf(reminders[j].reminderTime);
      assert seen + NoteEvents(note)[..j + 1] == (seen + NoteEvents(note)[..j]) + [enriched];
      if dateString !in eventMap' {
        eventMap' := eventMap'[dateString := []];
      }
      eventMap' := eventMap'[dateString := eventMap'[dateString] + [enriched]];
      j := j + 1;
    }
    assert NoteEvents(note)[..|reminders|] == NoteEvents(note);
  }

  /** `eventsByDate`. */
  method GroupEvents(notes: seq<Note>) returns (eventMap: map<int, seq<Event>>)
    ensures eventMap == Grouped(AllEvents(notes))
  {
    eventMap := map[];
    var i := 0;
    while i < |notes|
      invariant 0 <= i <= |notes|
      invariant eventMap == Grouped(AllEvents(notes[..i]))
    {
      assert notes[..i + 1][..i] == notes[..i];
      eventMap := AddNoteEvents(eventMap, notes[i], AllEvents(notes[..i]));
      i := i + 1;
    }
    assert notes[..|notes|] == notes;
  }

  /** A calendar date: year, month 1..12 and day of the month, as a
      `yyyy-MM-dd` key names it. */
  datatype Date = Date(year: int, month: int, day: int)

  /** The eight fixed holidays, keyed by (month, day). */
  const FixedHolidays: map<(int, int), string> := map[
    (1, 1) := "신정", (3, 1) := "삼일절", (5, 5) := "어린이날", (6, 6) := "현충일",
    (8, 15) := "광복절", (10, 3) := "개천절", (10, 9) := "한글날", (12, 25) := "크리스마스"
  ]

  /** The holidays set for 2025, keyed by (month, day). */
  const Holidays2025: map<(int, int), string> := map[
    (1, 28) := "설날 연휴", (1, 29) := "설날", (1, 30) := "설날 연휴", (5, 5) := "부처님 오신 날",
    (10, 5) := "추석 연휴", (10, 6) := "추석", (10, 7) := "추석 연휴"
  ]

  /** `holidayMap` for the shown year: the fixed holidays of that year,
      and in 2025 the added dates, whose 05-05 entry replaces Children's
      Day. */
  method HolidayMap(year: int) returns (holidayMap: map<Date, string>)
    ensures forall d :: d in holidayMap ==> d.year == year
    ensures forall md :: md in FixedHolidays ==> Date(year, md.0, md.1) in holidayMap
    ensures forall md :: md in FixedHolidays && !(year == 2025 && md in Holidays2025) ==>
              holidayMap[Date(year, md.0, md.1)] == FixedHolidays[md]
    ensures year == 2025 ==> forall md :: md in Holidays2025 ==>
              Date(2025, md.0, md.1) in holidayMap && holidayMap[Date(2025, md.0, md.1)] == Holidays2025[md]
    ensures year != 2025 ==> forall d :: d in holidayMap ==> (d.month, d.day) in FixedHolidays
  {
    holidayMap := FixedHolidayMap(year);
    if year == 2025 {
      holidayMap := Add2025(holidayMap);
    }
  }

  /** The eight fixed `set` calls. */
  method FixedHolidayMap(year: int) returns (holidayMap: map<Date, string>)
    ensures forall d :: d in holidayMap ==>
              d.year == year && (d.month, d.day) in FixedHolidays && holidayMap[d] == FixedHolidays[(d.month, d.day)]
    ensures forall md :: md in FixedHolidays ==> Date(year, md.0, md.1) in holidayMap
  {
    holidayMap := map[];
    holidayMap := holidayMap[Date(year, 1, 1) := "신정"];
    holidayMap := holidayMap[Date(year, 3, 1) := "삼일절"];
    holidayMap := holidayMap[Date(year, 5, 5) := "어린이날"];
    holidayMap := holidayMap[Date(year, 6, 6) := "현충일"];
    holidayMap := holidayMap[Date(year, 8, 15) := "광복절"];
    holidayMap := holidayMap[Date(year, 10, 3) := "개천절"];
    holidayMap := holidayMap[Date(year, 10, 9) := "한글날"];
    holidayMap := holidayMap[Date(year, 12, 25) := "크리스마스"];
  }

  /** The `year === 2025` block: seven `set` calls, which replace the entry
      of a date already present. */
  method Add2025(holidayMap: map<Date, string>) returns (holidayMap': map<Date, string>)
    ensures forall d :: d in holidayMap ==> d in holidayMap'
    ensures forall d :: d in holidayMap' ==> d in holidayMap || (d.year == 2025 && (d.month, d.day) in Holidays2025)
    ensures forall d :: d in holidayMap && (d.year != 2025 || (d.month, d.day) !in Holidays2025) ==>
              holidayMap'[d] == holidayMap[d]
    ensures forall md :: md in Holidays2025 ==>
              Date(2025, md.0, md.1) in holidayMap' && holidayMap'[Date(2025, md.0, md.1)] == Holidays2025[md]
  {
    holidayMap' := holidayMap;
    holidayMap' := holidayMap'[Date(2025, 1, 28) := "설날 연휴"];
    holidayMap' := holidayMap'[Date(2025, 1, 29) := "설날"];
    holidayMap' := holidayMap'[Date(2025, 1, 30) := "설날 연휴"];
    holidayMap' := holidayMap'[Date(2025, 5, 5) := "부처님 오신 날"];
    holidayMap' := holidayMap'[Date(2025, 10, 5) := "추석 연휴"];
    holidayMap' := holidayMap'[Date(2025, 10, 6) := "추석"];
    holidayMap' := holidayMap'[Date(2025, 10, 7) := "추석 연휴"];
  }

  /** Children's Day is a holiday every year, and in 2025 its date carries
      the other holiday of that day instead. */
  lemma ChildrensDay()
    ensures (5, 5) in FixedHolidays && (5, 5) in Holidays2025
    ensures FixedHolidays[(5, 5)] == "어린이날" && Holidays2025[(5, 5)] == "부처님 오신 날"
    ensures forall md :: md in FixedHolidays && md in Holidays2025 ==> md == (5, 5)
  {
  }

  /** The first and last day of the month, and the Sunday and Saturday
      around them (`startOfWeek`, `endOfWeek`). */
  function MonthStart(year: int, month: int): int {
    DateToDay(year, month, 1)
  }

  function MonthEnd(year: int, month: int): int
    requires 0 <= month < 12
  {
    DateToDay(year, month, DaysInMonth(year, month))
  }

  function CalendarStart(year: int, month: int): int {
    MonthStart(year, month) - Weekday(MonthStart(year, month))
  }

  function CalendarEnd(year: int, month: int): int
    requires 0 <= month < 12
  {
    MonthEnd(year, month) + (6 - Weekday(MonthEnd(year, month)))
  }

  /** The grid's span is whole weeks from a Sunday to a Saturday, covers
      the month, and starts and ends less than a week away from it. */
  lemma WeekAligned(year: int, month: int)
    requires 0 <= month < 12
    ensures Weekday(CalendarStart(year, month)) == 0 && Weekday(CalendarEnd(year, month)) == 6
    ensures CalendarStart(year, month) <= MonthStart(year, month) < CalendarStart(year, month) + 7
    ensures CalendarEnd(year, month) - 7 < MonthEnd(year, month) <= CalendarEnd(year, month)
    ensures (CalendarEnd(year, month) + 1 - CalendarStart(year, month)) % 7 == 0
    ensures 28 <= CalendarEnd(year, month) + 1 - CalendarStart(year, month) <= 42
  {
    PlanCalendar.DayOfMonthOffset(year, month, DaysInMonth(year, month));
    WeekSpan(MonthStart(year, month), MonthEnd(year, month));
  }

  /** The Sunday on or before `first` to the Saturday on or after `last`. */
  lemma WeekSpan(first: int, last: int)
    requires 28 <= last + 1 - first <= 31
    ensures Weekday(first - Weekday(first)) == 0 && Weekday(last + (6 - Weekday(last))) == 6
    ensures (last + (6 - Weekday(last)) + 1 - (first - Weekday(first))) % 7 == 0
    ensures 28 <= last + (6 - Weekday(last)) + 1 - (first - Weekday(first)) <= 42
  {
    var q := (first + 4) / 7;
    assert first + 4 == 7 * q + Weekday(first);
    var q' := (last + 4) / 7;
    assert last + 4 == 7 * q' + Weekday(last);
    assert last + (6 - Weekday(last)) + 1 - (first - Weekday(first)) == 7 * (q' - q + 1);
    assert first - Weekday(first) + 4 == 7 * q;
    assert last + (6 - Weekday(last)) + 4 == 7 * q' + 6;
  }

  /** A grid cell: its day, whether it is in the shown month, its holiday
      and the events shown with the count of the others. */
  datatype Cell = Cell(day: int, inMonth: bool, holiday: Option<string>, shown: seq<Event>, more: nat)

  /** A cell: a holiday shows one event, any other day two. */
  function MakeCell(year: int, month: int, holidays: map<Date, string>, eventMap: map<int, seq<Event>>,
                    day: int): (c: Cell)
    requires 0 <= month < 12
    ensures c.day == day
    ensures c.inMonth <==> MonthStart(year, month) <= day <= MonthEnd(year, month)
    ensures var events := if day in eventMap then eventMap[day] else [];
            var limit := if c.holiday.Some? && c.holiday.value != "" then 1 else 2;
            |c.shown| == (if |events| < limit then |events| else limit)
            && c.shown == events[..|c.shown|] && |c.shown| + c.more == |events|
  {
    var civil := CivilFromDays(day);
    var key := Date(civil.0, civil.1, civil.2);
    var holidayName := if key in holidays then Some(holidays[key]) else None;
    var dayEvents := if day in eventMap then eventMap[day] else [];
    var p := Preview(dayEvents, if holidayName.Some? && holidayName.value != "" then 1 else 2);
    Cell(day, MonthStart(year, month) <= day <= MonthEnd(year, month), holidayName, p.0, p.1)
  }

  /** `renderCalendar`: seven cells at a time from the grid's first Sunday
      while the day is not past its last Saturday. */
  method RenderCalendar(year: int, month: int, holidays: map<Date, string>, eventMap: map<int, seq<Event>>)
    returns (cells: seq<Cell>)
    requires 0 <= month < 12
    ensures |cells| == CalendarEnd(year, month) + 1 - CalendarStart(year, month)
    ensures |cells| % 7 == 0
    ensures forall i :: 0 <= i < |cells| ==>
              cells[i] == MakeCell(year, month, holidays, eventMap, CalendarStart(year, month) + i)
  {
    WeekAligned(year, month);
    var calendarStart := CalendarStart(year, month);
    var calendarEnd := CalendarEnd(year, month);
    ghost var weeksLeft := (calendarEnd + 1 - calendarStart) / 7;
    ghost var weeks := 0;
    cells := [];
    var day := calendarStart;
    while day <= calendarEnd
      invariant day == calendarStart + |cells| && |cells| == 7 * weeks
      invariant calendarEnd + 1 - day == 7 * weeksLeft && weeksLeft >= 0
      invariant CellsFrom(cells, year, month, holidays, eventMap, calendarStart)
      decreases weeksLeft
    {
      cells, day := PushWeek(cells, year, month, holidays, eventMap, calendarStart, day);
      weeks := weeks + 1;
      weeksLeft := weeksLeft - 1;
    }
  }

  /** The cells of consecutive days from `start`. */
  ghost predicate CellsFrom(cells: seq<Cell>, year: int, month: int, holidays: map<Date, string>,
                            eventMap: map<int, seq<Event>>, start: int)
    requires 0 <= month < 12
  {
    forall i :: 0 <= i < |cells| ==> cells[i] == MakeCell(year, month, holidays, eventMap, start + i)
  }

  /** The inner loop of `renderCalendar`: one week of cells. */
  method PushWeek(cells: seq<Cell>, year: int, month: int, holidays: map<Date, string>,
                  eventMap: map<int, seq<Event>>, ghost start: int, day: int)
    returns (cells': seq<Cell>, day': int)
    requires 0 <= month < 12
    requires day == start + |cells| && CellsFrom(cells, year, month, holidays, eventMap, start)
    ensures |cells'| == |cells| + 7 && day' == day + 7
    ensures CellsFrom(cells', year, month, holidays, eventMap, start)
  {
    cells', day' := cells, day;
    var i := 0;
    while i < 7
      invariant 0 <= i <= 7
      invariant day' == start + |cells'| && |cells'| == |cells| + i
      invariant CellsFrom(cells', year, month, holidays, eventMap, start)
    {
      cells' := cells' + [MakeCell(year, month, holidays, eventMap, day')];
      day' := day' + 1;
      i := i + 1;
    }
  }

  /** The shown month as the arrows move it in the source: `setMonth`
      keeps the day of the month, and a day the new month lacks rolls over
      into the month after. The result is (year, month 1..12, day). */
  function SetMonthAsWritten(year: int, month: int, day: int, delta: int): (int, int, int) {
    CivilFromDays(DateToDay(year, month + delta, day))
  }

  /** From 31 January "next month" shows March, and from 31 March
      "previous month" stays in March. */
  lemma ThirtyFirstSkipsFebruary()
    ensures SetMonthAsWritten(2025, 0, 31, 1) == (2025, 3, 3)
    ensures SetMonthAsWritten(2025, 2, 31, -1) == (2025, 3, 3)
  {
    FebruaryThirtyFirst();
    TwentyOneFifty();
  }

  lemma FebruaryThirtyFirst()
    ensures DateToDay(2025, 1, 31) == 20150
  {
    assert 1 / 12 == 0 && 1 % 12 == 1;
    assert 2024 / 400 == 5 && 11 % 12 == 11;
    assert (153 * 11 + 2) / 5 == 337 && 24 / 4 == 6 && 24 / 100 == 0;
    assert DaysFromCivil(2025, 2, 1) == 20120;
  }

  lemma TwentyOneFifty()
    ensures CivilFromDays(20150) == (2025, 3, 3)
  {
    assert 739618 / 146097 == 5;
    assert 9133 / 1460 == 6 && 9133 / 36524 == 0 && 9133 / 146096 == 0;
    assert 9127 / 365 == 25 && 25 / 4 == 6 && 25 / 100 == 0;
    assert (5 * 2 + 2) / 153 == 0 && 2 / 5 == 0;
  }

  /** The intended move: to the adjacent month, the day of the month cut
      to that month's length. The result is (year, month index, day). */
  function ShiftMonth(year: int, month: int, day: int, forward: bool): (r: (int, int, int))
    requires 0 <= month < 12
    ensures 0 <= r.1 < 12
    ensures PlanCalendar.MonthNumber(r.0, r.1) == PlanCalendar.MonthNumber(year, month) + (if forward then 1 else -1)
    ensures r.2 == (if day < DaysInMonth(r.0, r.1) then day else DaysInMonth(r.0, r.1))
    ensures 1 <= day ==> 1 <= r.2 <= DaysInMonth(r.0, r.1)
  {
    var ym := if forward then PlanCalendar.Next(year, month) else PlanCalendar.Prev(year, month);
    PlanCalendar.ArrowsAreInverse(year, month);
    var last := DaysInMonth(ym.0, ym.1);
    (ym.0, ym.1, if day < last then day else last)
  }

  /** Moving forward and back returns to the month, and to the day when
      both months have it. */
  lemma ShiftThereAndBack(year: int, month: int, day: int)
    requires 0 <= month < 12 && 1 <= day <= 28
    ensures var r := ShiftMonth(year, month, day, true);
            ShiftMonth(r.0, r.1, r.2, false) == (year, month, day)
  {
    PlanCalendar.ArrowsAreInverse(year, month);
  }

  /** On a day every month has, the arrows as written land on the date the
      corrected move names: the day number `setMonth` computes is that of
      the shifted month and the same day. */
  lemma AsWrittenMatchesShift(year: int, month: int, day: int, forward: bool)
    requires 0 <= month < 12 && 1 <= day <= 28
    ensures var r := ShiftMonth(year, month, day, forward);
            r.2 == day
            && DateToDay(year, month + (if forward then 1 else -1), day) == DateToDay(r.0, r.1, r.2)
            && SetMonthAsWritten(year, month, day, if forward then 1 else -1) == CivilFromDays(DateToDay(r.0, r.1, r.2))
  {
    var r := ShiftMonth(year, month, day, forward);
    if forward {
      if month == 11 {
        assert (month + 1) / 12 == 1 && (month + 1) % 12 == 0;
      } else {
        assert (month + 1) / 12 == 0 && (month + 1) % 12 == month + 1;
      }
    } else {
      if month == 0 {
        assert (month - 1) / 12 == -1 && (month - 1) % 12 == 11;
      } else {
        assert (month - 1) / 12 == 0 && (month - 1) % 12 == month - 1;
      }
    }
    assert r.1 / 12 == 0 && r.1 % 12 == r.1;
  }

  /** The calendar's state: the shown date and the selected day. */
  class MonthView {
    var currentYear: int
    var currentMonth: int
    var currentDay: int
    var selectedDay: Option<int>

    predicate Valid()
      reads this
    {
      0 <= currentMonth < 12 && 1 <= currentDay <= 31
    }

    /** Today shown and selected. */
    constructor(today: int)
      ensures currentYear == CivilFromDays(today).0 && currentMonth == CivilFromDays(today).1 - 1
      ensures currentDay == CivilFromDays(today).2 && selectedDay == Some(today)
    {
      var c := CivilFromDays(today);
      currentYear, currentMonth, currentDay := c.0, c.1 - 1, c.2;
      selectedDay := Some(today);
    }

    /** `goToPreviousMonth`: `setMonth(getMonth() - 1)`, which keeps the
        day of the month and lets it roll over. */
    method GoToPreviousMonth()
      modifies this
      requires Valid()
      ensures Valid()
      ensures var r := SetMonthAsWritten(old(currentYear), old(currentMonth), old(currentDay), -1);
              (currentYear, currentMonth + 1, currentDay) == r
      ensures selectedDay == old(selectedDay)
    {
      var r := SetMonthAsWritten(currentYear, currentMonth, currentDay, -1);
      currentYear, currentMonth, currentDay := r.0, r.1 - 1, r.2;
    }

    /** `goToNextMonth`: `setMonth(getMonth() + 1)`, which keeps the day of
        the month and lets it roll over. */
    method GoToNextMonth()
      modifies this
      requires Valid()
      ensures Valid()
      ensures var r := SetMonthAsWritten(old(currentYear), old(currentMonth), old(currentDay), 1);
              (currentYear, currentMonth + 1, currentDay) == r
      ensures selectedDay == old(selectedDay)
    {
      var r := SetMonthAsWritten(currentYear, currentMonth, currentDay, 1);
      currentYear, currentMonth, currentDay := r.0, r.1 - 1, r.2;
    }

    /** `goToToday`: today shown and selected. */
    method GoToToday(today: int)
      modifies this
      ensures currentYear == CivilFromDays(today).0 && currentMonth == CivilFromDays(today).1 - 1
      ensures currentDay == CivilFromDays(today).2 && selectedDay == Some(today)
    {
      var c := CivilFromDays(today);
      currentYear, currentMonth, currentDay := c.0, c.1 - 1, c.2;
      selectedDay := Some(today);
    }

    /** `handleDateClick`: the selected day clears the selection, any other
        day becomes the selection. */
    method HandleDateClick(day: int)
      modifies this
      ensures old(selectedDay) == Some(day) ==> selectedDay.None?
      ensures old(selectedDay) != Some(day) ==> selectedDay == Some(day)
      ensures currentYear == old(currentYear) && currentMonth == old(currentMonth) && currentDay == old(currentDay)
    {
      selectedDay := if selectedDay.Some? && selectedDay.value == day then None else Some(day);
    }
  }
}
