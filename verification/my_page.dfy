/** The "my page" profile and activity tabs: the progress-bar clamp, the
    profile statistics (including the consecutive-day streak), the
    365-day activity series, the achievement badges and the weekly and
    monthly completion rates.  Day keys (`toISOString().split('T')[0]`)
    are day numbers; the clock is the parameter `now`. */
module MyPage {
  import opened Common
  import ActivityWorker

  datatype Reminder = Reminder(
    completed: bool,
    updatedAt: int,
    completedAt: Option<int>,
    reminderTime: Option<int>)

  datatype Note = Note(tags: seq<string>)

  datatype Stats = Stats(
    totalNotes: nat,
    totalReminders: nat,
    completedReminders: nat,
    tagsUsed: nat,
    completionRate: real,
    todayCompleted: nat,
    streak: nat,
    weeklyAverage: nat)

  datatype DayActivity = DayActivity(date: int, count: nat, level: nat)

  datatype Achievement = Achievement(id: string, unlocked: bool)

  /* ---------------------------------------------------------------------
     Progress bar
     --------------------------------------------------------------------- */

  /** `Math.max(0, Math.min(100, value || 0))`; `None` stands for a falsy
      value (`undefined`, `NaN`). */
  function Progress(value: Option<real>): (r: real)
    ensures 0.0 <= r <= 100.0
    ensures value.None? ==> r == 0.0
    ensures value.Some? && 0.0 <= value.value <= 100.0 ==> r == value.value
    ensures value.Some? && value.value > 100.0 ==> r == 100.0
    ensures value.Some? && value.value < 0.0 ==> r == 0.0
  {
    var v := if value.Some? then value.value else 0.0;
    if v < 0.0 then 0.0 else if v > 100.0 then 100.0 else v
  }

  /** The bar never shrinks when the value grows. */
  lemma ProgressMonotone(a: real, b: real)
    requires a <= b
    ensures Progress(Some(a)) <= Progress(Some(b))
  {
  }

  /* ---------------------------------------------------------------------
     Profile statistics
     --------------------------------------------------------------------- */

  function CompletedOf(rs: seq<Reminder>): (r: seq<Reminder>)
    ensures |r| <= |rs|
    ensures forall x :: x in r <==> x in rs && x.completed
  {
    Filter(rs, (x: Reminder) => x.completed)
  }

  /** The update days of the completed reminders, in input order. */
  function CompletionDays(rs: seq<Reminder>): (r: seq<int>)
    ensures forall d :: d in r <==> exists x :: x in rs && x.completed && DayOf(x.updatedAt) == d
  {
    if rs == [] then []
    else
      var last := rs[|rs| - 1];
      CompletionDays(rs[..|rs| - 1]) + (if last.completed then [DayOf(last.updatedAt)] else [])
  }

  function IntLe(a: int, b: int): bool { a <= b }

  /** `[...new Set(days)].sort()`: the distinct completion days in
      ascending order (ISO day strings sort like day numbers). */
  function CompletionDates(rs: seq<Reminder>): seq<int> {
    assert TotalPreorder(IntLe);
    Sort(Dedupe(CompletionDays(rs)), IntLe)
  }

  /** The completion dates are strictly increasing and are exactly the
      days on which some reminder was completed. */
  lemma CompletionDatesFacts(rs: seq<Reminder>)
    ensures var r := CompletionDates(rs);
            forall i, j :: 0 <= i < j < |r| ==> r[i] < r[j]
    ensures var r := CompletionDates(rs);
            forall d :: d in r <==> exists x :: x in rs && x.completed && DayOf(x.updatedAt) == d
  {
    var distinct := Dedupe(CompletionDays(rs));
    var sorted := CompletionDates(rs);
    MultisetNoDups(distinct, sorted);
    SortedDistinctIncreasing(sorted);
    forall d ensures d in sorted <==> d in distinct {
      assert d in sorted <==> d in multiset(sorted);
      assert d in distinct <==> d in multiset(distinct);
    }
  }

  /** Length of the run of consecutive days that ends at the last date. */
  function Run(dates: seq<int>): (r: nat)
    ensures r <= |dates|
    ensures dates != [] ==> r >= 1
  {
    if |dates| <= 1 then |dates|
    else if dates[|dates| - 1] - dates[|dates| - 2] == 1 then Run(dates[..|dates| - 1]) + 1
    else 1
  }

  /** The last `Run(dates)` dates are consecutive days ending at the last
      date, and the run cannot be extended by one more date. */
  lemma {:induction false} RunIsMaximal(dates: seq<int>)
    requires dates != []
    ensures forall k :: |dates| - Run(dates) <= k < |dates| ==>
              dates[k] == dates[|dates| - 1] - (|dates| - 1 - k)
    ensures Run(dates) < |dates| ==>
              dates[|dates| - Run(dates)] - dates[|dates| - Run(dates) - 1] != 1
  {
    var n := |dates|;
    if n > 1 && dates[n - 1] - dates[n - 2] == 1 {
      var init := dates[..n - 1];
      RunIsMaximal(init);
      assert forall k :: 0 <= k < n - 1 ==> init[k] == dates[k];
    }
  }

  /** The streak loop: 0 unless the latest completion day is today or
      yesterday; otherwise the run of consecutive days ending there. */
  method Streak(dates: seq<int>, today: int) returns (streak: nat)
    ensures streak == (if dates != [] && (dates[|dates| - 1] == today || dates[|dates| - 1] == today - 1)
                       then Run(dates) else 0)
  {
    streak := 0;
    if |dates| > 0 {
      var last := dates[|dates| - 1];
      if last == today || last == today - 1 {
        streak := 1;
        var i := |dates| - 1;
        assert dates[..i + 1] == dates;
        while i > 0
          invariant 0 <= i <= |dates| - 1
          invariant Run(dates) == streak - 1 + Run(dates[..i + 1])
          invariant streak == |dates| - i
          decreases i
        {
          assert dates[..i + 1][..i] == dates[..i];
          var diffDays := dates[i] - dates[i - 1];
          if diffDays == 1 {
            streak := streak + 1;
          } else {
            break;
          }
          i := i - 1;
        }
      }
    }
  }

  /** The number of completed reminders updated on `day`. */
  function CountCompletedOnDay(rs: seq<Reminder>, day: int): nat {
    if rs == [] then 0
    else
      var last := rs[|rs| - 1];
      CountCompletedOnDay(rs[..|rs| - 1], day) + (if last.completed && DayOf(last.updatedAt) == day then 1 else 0)
  }

  /** Per-day counts never exceed the completed reminders, and they are
      positive exactly on completion days. */
  lemma {:induction false} CountCompletedOnDayFacts(rs: seq<Reminder>, day: int)
    ensures CountCompletedOnDay(rs, day) <= |CompletedOf(rs)|
    ensures CountCompletedOnDay(rs, day) > 0 <==> day in CompletionDays(rs)
  {
    if rs != [] {
      var init := rs[..|rs| - 1];
      CountCompletedOnDayFacts(init, day);
      assert rs == init + [rs[|rs| - 1]];
      FilterConcat(init, [rs[|rs| - 1]], (x: Reminder) => x.completed);
    }
  }

  /** Completed reminders whose `completedAt` is within the last seven
      days (`new Date(undefined)` compares false). */
  function CompletedThisWeek(rs: seq<Reminder>, now: int): (r: nat)
    ensures r <= |CompletedOf(rs)|
  {
    |Filter(CompletedOf(rs), (x: Reminder) => x.completedAt.Some? && x.completedAt.value >= now - 7 * Day)|
  }

  function AllTags(notes: seq<Note>): set<string> {
    set n, t | n in notes && t in n.tags :: t
  }

  /** The statistics memo. */
  method ComputeStats(notes: seq<Note>, reminders: seq<Reminder>, now: int) returns (s: Stats)
    ensures s.totalNotes == |notes| && s.totalReminders == |reminders|
    ensures s.completedReminders == |CompletedOf(reminders)| <= s.totalReminders
    ensures s.tagsUsed == |AllTags(notes)|
    ensures s.completionRate == ActivityWorker.Rate(s.completedReminders, s.totalReminders)
    ensures s.todayCompleted == CountCompletedOnDay(reminders, DayOf(now))
    ensures s.weeklyAverage == Round((CompletedThisWeek(reminders, now) as real) / 7.0)
    ensures var dates := CompletionDates(reminders);
            s.streak == (if dates != [] && (dates[|dates| - 1] == DayOf(now) || dates[|dates| - 1] == DayOf(now) - 1)
                         then Run(dates) else 0)
  {
    var completed := CompletedOf(reminders);
    var streak := Streak(CompletionDates(reminders), DayOf(now));
    s := Stats(|notes|, |reminders|, |completed|, |AllTags(notes)|,
               ActivityWorker.Rate(|completed|, |reminders|),
               CountCompletedOnDay(reminders, DayOf(now)), streak,
               Round((CompletedThisWeek(reminders, now) as real) / 7.0));
  }

  /* ---------------------------------------------------------------------
     The 365-day activity series
     --------------------------------------------------------------------- */

  /** `count === 0 ? 0 : Math.min(Math.ceil(count / 2), 4)`. */
  function DayLevel(count: nat): (r: nat)
    ensures r == ActivityWorker.Level(count)
  {
    if count == 0 then 0 else
      var half := (count + 1) / 2;
      if half < 4 then half else 4
  }

  /** The `data` object: completed reminders counted per update day. */
  method Tally(rs: seq<Reminder>) returns (data: map<int, nat>)
    ensures forall d :: d in data ==> data[d] == CountCompletedOnDay(rs, d) && data[d] >= 1
    ensures forall d :: d !in data ==> CountCompletedOnDay(rs, d) == 0
  {
    data := map[];
    var i := 0;
    while i < |rs|
      invariant 0 <= i <= |rs|
      invariant forall d :: d in data ==> data[d] == CountCompletedOnDay(rs[..i], d) && data[d] >= 1
      invariant forall d :: d !in data ==> CountCompletedOnDay(rs[..i], d) == 0
    {
      TallyStep(rs, i);
      if rs[i].completed {
        var date := DayOf(rs[i].updatedAt);
        data := data[date := (if date in data then data[date] else 0) + 1];
      }
      i := i + 1;
    }
    assert rs[..i] == rs;
  }

  lemma TallyStep(rs: seq<Reminder>, i: nat)
    requires i < |rs|
    ensures forall d :: CountCompletedOnDay(rs[..i + 1], d) ==
              CountCompletedOnDay(rs[..i], d) + (if rs[i].completed && DayOf(rs[i].updatedAt) == d then 1 else 0)
  {
    assert rs[..i + 1][..i] == rs[..i];
  }

  /** The loop `for (i = 364; i >= 0; i--)`: one entry per day of the
      year ending today, oldest first. */
  method YearActivity(rs: seq<Reminder>, today: int) returns (list: seq<DayActivity>)
    ensures |list| == 365
    ensures forall k :: 0 <= k < 365 ==>
              list[k] == DayActivity(today - 364 + k,
                                     CountCompletedOnDay(rs, today - 364 + k),
                                     DayLevel(CountCompletedOnDay(rs, today - 364 + k)))
  {
    var data := Tally(rs);
    list := [];
    var i := 364;
    while i >= 0
      invariant -1 <= i <= 364
      invariant |list| == 364 - i
      invariant forall k :: 0 <= k < |list| ==>
                  list[k] == DayActivity(today - 364 + k,
                                         CountCompletedOnDay(rs, today - 364 + k),
                                         DayLevel(CountCompletedOnDay(rs, today - 364 + k)))
    {
      var date := today - i;
      var count := if date in data then data[date] else 0;
      list := list + [DayActivity(date, count, DayLevel(count))];
      i := i - 1;
    }
  }

  /** The series is in strictly increasing day order, ends today, and an
      entry's level is 0 exactly on days without completions. */
  lemma YearActivityFacts(list: seq<DayActivity>, rs: seq<Reminder>, today: int)
    requires |list| == 365
    requires forall k :: 0 <= k < 365 ==>
               list[k] == DayActivity(today - 364 + k,
                                      CountCompletedOnDay(rs, today - 364 + k),
                                      DayLevel(CountCompletedOnDay(rs, today - 364 + k)))
    ensures forall i, j :: 0 <= i < j < 365 ==> list[i].date < list[j].date
    ensures list[364].date == today
    ensures forall k :: 0 <= k < 365 ==> (list[k].level == 0 <==> list[k].count == 0) && list[k].level <= 4
  {
  }

  /* ---------------------------------------------------------------------
     Achievements
     --------------------------------------------------------------------- */

  function Achievements(s: Stats): (r: seq<Achievement>)
    ensures |r| == 6
    ensures r[0].unlocked <==> s.totalNotes > 0
    ensures r[1].unlocked <==> s.totalNotes >= 100
    ensures r[2].unlocked <==> s.completedReminders >= 50
    ensures r[3].unlocked <==> s.streak >= 7
    ensures r[4].unlocked <==> s.completionRate >= 95.0
    ensures r[5].unlocked <==> s.tagsUsed >= 20
  {
    [ Achievement("first_note", s.totalNotes > 0),
      Achievement("note_master", s.totalNotes >= 100),
      Achievement("reminder_pro", s.completedReminders >= 50),
      Achievement("streak_week", s.streak >= 7),
      Achievement("perfectionist", s.completionRate >= 95.0),
      Achievement("tag_organizer", s.tagsUsed >= 20) ]
  }

  /** Larger statistics never lock an achievement, and the note-master
      badge implies the first-note badge. */
  lemma AchievementsMonotone(a: Stats, b: Stats)
    requires a.totalNotes <= b.totalNotes && a.completedReminders <= b.completedReminders
    requires a.streak <= b.streak && a.completionRate <= b.completionRate && a.tagsUsed <= b.tagsUsed
    ensures forall k :: 0 <= k < 6 && Achievements(a)[k].unlocked ==> Achievements(b)[k].unlocked
    ensures Achievements(a)[1].unlocked ==> Achievements(a)[0].unlocked
  {
  }

  /* ---------------------------------------------------------------------
     Weekly and monthly completion rates
     --------------------------------------------------------------------- */

  /** The Monday that starts the current week (`getDay() === 0 ? 6 :
      getDay() - 1` days back). */
  function WeekStartDay(today: int): (r: int)
    ensures Weekday(r) == 1
    ensures today - 6 <= r <= today
  {
    var wd := Weekday(today);
    today - (if wd == 0 then 6 else wd - 1)
  }

  /** The first day of the current month. */
  function MonthStartDay(today: int): int {
    var c := CivilFromDays(today);
    DaysFromCivil(c.0, c.1, 1)
  }

  function RemindersSince(rs: seq<Reminder>, start: int): (r: seq<Reminder>)
    ensures forall x :: x in r <==> x in rs && x.reminderTime.Some? && x.reminderTime.value >= start
  {
    Filter(rs, (x: Reminder) => x.reminderTime.Some? && x.reminderTime.value >= start)
  }

  /** `Math.round(completed / window * 100)`, 0 for an empty window. */
  function WindowRate(window: seq<Reminder>): (r: int)
    ensures 0 <= r <= 100
    ensures window == [] ==> r == 0
  {
    if window == [] then 0
    else Round(ActivityWorker.Rate(|CompletedOf(window)|, |window|))
  }

  /** The rate is 0 when nothing in the window is completed and 100 when
      everything is. */
  lemma WindowRateExtremes(window: seq<Reminder>)
    ensures (forall x :: x in window ==> !x.completed) ==> WindowRate(window) == 0
    ensures window != [] && (forall x :: x in window ==> x.completed) ==> WindowRate(window) == 100
  {
    if forall x :: x in window ==> !x.completed {
      NoneDone(window);
    }
    if window != [] && forall x :: x in window ==> x.completed {
      AllDone(window);
    }
  }

  lemma NoneDone(window: seq<Reminder>)
    requires forall x :: x in window ==> !x.completed
    ensures WindowRate(window) == 0
  {
    FilterNone(window, (x: Reminder) => x.completed);
  }

  lemma AllDone(window: seq<Reminder>)
    requires window != [] && forall x :: x in window ==> x.completed
    ensures WindowRate(window) == 100
  {
    FilterKeepsAll(window, (x: Reminder) => x.completed);
    FullRate(|window|);
  }

  /** Everything completed is a rate of exactly 100. */
  lemma FullRate(k: nat)
    requires k > 0
    ensures ActivityWorker.Rate(k, k) == 100.0
  {
    assert (k as real) / (k as real) == 1.0;
  }

  /** `completionRates`: both 0 without reminders. */
  function CompletionRates(rs: seq<Reminder>, now: int): (r: (int, int))
    ensures rs == [] ==> r == (0, 0)
    ensures 0 <= r.0 <= 100 && 0 <= r.1 <= 100
  {
    if rs == [] then (0, 0)
    else
      var today := DayOf(now);
      (WindowRate(RemindersSince(rs, WeekStartDay(today) * Day)),
       WindowRate(RemindersSince(rs, MonthStartDay(today) * Day)))
  }

}
