/** The reminder panel of the main dashboard
    (src/components/features/dashboard/main/reminder.tsx): the reminders of
    every note, filtered by one of four tabs and sorted by time, grouped by
    day for the recent and overdue tabs, with a button that deletes every
    completed reminder. The clock reading is a parameter; a day is a local
    calendar day without daylight-saving changes. */
module MainReminderView {
  import opened Common

  /** A reminder enriched with its note. */
  datatype Reminder = Reminder(id: string, noteId: string, noteTitle: string, reminderText: string,
                               reminderTime: int, completed: bool, enabled: bool)

  datatype FilterType = Recent | Upcoming | Overdue | Completed

  /** The test of the active tab at clock reading `now`. */
  predicate Keeps(f: FilterType, r: Reminder, now: int) {
    var today := StartOfDay(now);
    var threeDaysLater := StartOfDay(now + 3 * Day);
    var reminderDate := StartOfDay(r.reminderTime);
    match f
    case Recent => !r.completed && reminderDate >= today && reminderDate < threeDaysLater && r.reminderTime >= now
    case Upcoming => !r.completed && reminderDate >= threeDaysLater
    case Overdue => !r.completed && r.reminderTime < now
    case Completed => r.completed
  }

  /** The tabs in terms of day numbers: recent is today and the next two
      days from now on, upcoming from the third day on, overdue anything
      before now, completed the completed ones. */
  lemma KeepsDays(r: Reminder, now: int)
    ensures Keeps(Recent, r, now) <==>
              !r.completed && DayOf(now) <= DayOf(r.reminderTime) < DayOf(now) + 3 && r.reminderTime >= now
    ensures Keeps(Upcoming, r, now) <==> !r.completed && DayOf(r.reminderTime) >= DayOf(now) + 3
    ensures Keeps(Overdue, r, now) <==> !r.completed && r.reminderTime < now
    ensures Keeps(Completed, r, now) <==> r.completed
  {
    DaysLater(now, 3);
    var d, t := DayOf(now), DayOf(r.reminderTime);
    if t < d {
      assert t * Day <= (d - 1) * Day;
    } else {
      assert t * Day >= d * Day;
    }
    if t < d + 3 {
      assert t * Day <= (d + 2) * Day;
    } else {
      assert t * Day >= (d + 3) * Day;
    }
  }

  /** No open reminder is kept by two of the recent, upcoming and overdue
      tabs, and completed reminders only by the completed tab. */
  lemma TabsDisjoint(r: Reminder, now: int)
    ensures !(Keeps(Recent, r, now) && Keeps(Upcoming, r, now))
    ensures !(Keeps(Recent, r, now) && Keeps(Overdue, r, now))
    ensures !(Keeps(Upcoming, r, now) && Keeps(Overdue, r, now))
    ensures r.completed <==> Keeps(Completed, r, now)
    ensures r.completed ==> !Keeps(Recent, r, now) && !Keeps(Upcoming, r, now) && !Keeps(Overdue, r, now)
  {
    KeepsDays(r, now);
    if Keeps(Upcoming, r, now) {
      DaysLater(now, 3);
      assert r.reminderTime >= StartOfDay(now + 3 * Day) > now;
    }
  }

  function KeptBy(f: FilterType, now: int): Reminder -> bool {
    (r: Reminder) => Keeps(f, r, now)
  }

  /** `(a, b) => a.time - b.time`. */
  function Earlier(): (Reminder, Reminder) -> bool {
    (a: Reminder, b: Reminder) => a.reminderTime <= b.reminderTime
  }

  lemma EarlierTotal()
    ensures TotalPreorder(Earlier())
  {
  }

  /** `filteredReminders`: the reminders the active tab keeps, earliest
      first. */
  function FilteredReminders(reminders: seq<Reminder>, f: FilterType, now: int): (r: seq<Reminder>)
    ensures forall x :: x in r <==> x in reminders && Keeps(f, x, now)
    ensures multiset(r) <= multiset(reminders)
    ensures forall i, j :: 0 <= i < j < |r| ==> r[i].reminderTime <= r[j].reminderTime
  {
    EarlierTotal();
    FilterMultiset(reminders, KeptBy(f, now));
    var r := Sort(Filter(reminders, KeptBy(f, now)), Earlier());
    assert forall x :: x in r <==> x in Filter(reminders, KeptBy(f, now)) by {
      forall x ensures x in r <==> x in Filter(reminders, KeptBy(f, now)) {
        assert x in r <==> x in multiset(r);
      }
    }
    r
  }

  /** The completed tab lists exactly the completed reminders; the other
      tabs never list a completed one. */
  lemma CompletedTabExact(reminders: seq<Reminder>, now: int)
    ensures forall x :: x in FilteredReminders(reminders, Completed, now) <==> x in reminders && x.completed
    ensures forall f, x :: f != Completed && x in FilteredReminders(reminders, f, now) ==> !x.completed
  {
  }

  predicate OnDay(r: Reminder, day: int) {
    DayOf(r.reminderTime) == day
  }

  function DayIs(day: int): Reminder -> bool {
    (r: Reminder) => OnDay(r, day)
  }

  /** None of the three days before today's: the `older` group. */
  function Older(today: int): Reminder -> bool {
    (r: Reminder) => !OnDay(r, today) && !OnDay(r, today - 1) && !OnDay(r, today - 2)
  }

  /** `groupedReminders`: the groups of the recent and the overdue tabs;
      the other tabs are not grouped. */
  datatype Groups =
    | RecentGroups(today: seq<Reminder>, tomorrow: seq<Reminder>, dayAfter: seq<Reminder>)
    | OverdueGroups(today: seq<Reminder>, yesterday: seq<Reminder>, dayBeforeYesterday: seq<Reminder>,
                    older: seq<Reminder>)
    | NoGroups

  /** The three day groups of the recent tab hold no reminder twice, and
      every reminder of the recent tab is in one of them. */
  lemma {:induction false} RecentPartition(s: seq<Reminder>, now: int)
    ensures var d := DayOf(now);
            multiset(Filter(s, DayIs(d))) + multiset(Filter(s, DayIs(d + 1))) + multiset(Filter(s, DayIs(d + 2)))
            <= multiset(s)
    ensures var d := DayOf(now);
            (forall x :: x in s ==> Keeps(Recent, x, now)) ==>
              multiset(Filter(s, DayIs(d))) + multiset(Filter(s, DayIs(d + 1)))
              + multiset(Filter(s, DayIs(d + 2))) == multiset(s)
  {
    if s != [] {
      RecentPartition(s[1..], now);
      assert s == [s[0]] + s[1..];
      KeepsDays(s[0], now);
      assert forall x :: x in s[1..] ==> x in s;
    }
  }

  /** The four groups of the overdue tab split the reminders: each one
      lands in exactly one group. */
  lemma {:induction false} OverduePartition(s: seq<Reminder>, d: int)
    ensures multiset(Filter(s, DayIs(d))) + multiset(Filter(s, DayIs(d - 1)))
            + multiset(Filter(s, DayIs(d - 2))) + multiset(Filter(s, Older(d))) == multiset(s)
  {
    if s != [] {
      OverduePartition(s[1..], d);
      var x, rest := s[0], s[1..];
      assert multiset(s) == multiset{x} + multiset(rest) by { assert s == [x] + rest; }
      OverdueHead(x, d);
      HeadSplit(s, DayIs(d));
      HeadSplit(s, DayIs(d - 1));
      HeadSplit(s, DayIs(d - 2));
      HeadSplit(s, Older(d));
    }
  }

  /** The first element, if kept, comes first in the filter's multiset. */
  lemma HeadSplit(s: seq<Reminder>, p: Reminder -> bool)
    requires s != []
    ensures multiset(Filter(s, p)) == multiset(if p(s[0]) then [s[0]] else []) + multiset(Filter(s[1..], p))
  {
  }

  /** A single reminder lands in exactly one of the four overdue groups. */
  lemma OverdueHead(x: Reminder, d: int)
    ensures multiset(if DayIs(d)(x) then [x] else []) + multiset(if DayIs(d - 1)(x) then [x] else [])
            + multiset(if DayIs(d - 2)(x) then [x] else []) + multiset(if Older(d)(x) then [x] else [])
            == multiset{x}
  {
  }

  /** One more reminder for the recent groups. */
  lemma RecentStep(pre: seq<Reminder>, r: Reminder, d: int)
    ensures var day := DayOf(r.reminderTime);
            && Filter(pre + [r], DayIs(d)) == Filter(pre, DayIs(d)) + (if day == d then [r] else [])
            && Filter(pre + [r], DayIs(d + 1)) == Filter(pre, DayIs(d + 1)) + (if day == d + 1 then [r] else [])
            && Filter(pre + [r], DayIs(d + 2)) == Filter(pre, DayIs(d + 2)) + (if day == d + 2 then [r] else [])
  {
    FilterSnoc(pre, r, DayIs(d));
    FilterSnoc(pre, r, DayIs(d + 1));
    FilterSnoc(pre, r, DayIs(d + 2));
  }

  /** The `forEach` of the recent tab: each reminder goes to the group of
      its day, today, tomorrow or the day after, or to none. */
  method GroupRecent(filtered: seq<Reminder>, now: int) returns (g: Groups)
    ensures g.RecentGroups?
    ensures g.today == Filter(filtered, DayIs(DayOf(now)))
    ensures g.tomorrow == Filter(filtered, DayIs(DayOf(now) + 1))
    ensures g.dayAfter == Filter(filtered, DayIs(DayOf(now) + 2))
    ensures multiset(g.today) + multiset(g.tomorrow) + multiset(g.dayAfter) <= multiset(filtered)
    ensures (forall x :: x in filtered ==> Keeps(Recent, x, now)) ==>
              multiset(g.today) + multiset(g.tomorrow) + multiset(g.dayAfter) == multiset(filtered)
  {
    var today, tomorrow, dayAfter := SplitRecent(filtered, DayOf(now));
    RecentPartition(filtered, now);
    g := RecentGroups(today, tomorrow, dayAfter);
  }

  /** The loop of the recent tab's `forEach`. */
  method SplitRecent(filtered: seq<Reminder>, d: int) returns (today: seq<Reminder>, tomorrow: seq<Reminder>, dayAfter: seq<Reminder>)
    ensures today == Filter(filtered, DayIs(d))
    ensures tomorrow == Filter(filtered, DayIs(d + 1))
    ensures dayAfter == Filter(filtered, DayIs(d + 2))
  {
    today, tomorrow, dayAfter := [], [], [];
    var i := 0;
    while i < |filtered|
      invariant 0 <= i <= |filtered|
      invariant today == Filter(filtered[..i], DayIs(d))
      invariant tomorrow == Filter(filtered[..i], DayIs(d + 1))
      invariant dayAfter == Filter(filtered[..i], DayIs(d + 2))
    {
      var r := filtered[i];
      assert filtered[..i + 1] == filtered[..i] + [r];
      RecentStep(filtered[..i], r, d);
      var day := DayOf(r.reminderTime);
      if day == d {
        today := today + [r];
      } else if day == d + 1 {
        tomorrow := tomorrow + [r];
      } else if day == d + 2 {
        dayAfter := dayAfter + [r];
      }
      i := i + 1;
    }
    assert filtered[..|filtered|] == filtered;
  }

  /** One more reminder for the overdue groups. */
  lemma OverdueStep(pre: seq<Reminder>, r: Reminder, d: int)
    ensures var day := DayOf(r.reminderTime);
            && Filter(pre + [r], DayIs(d)) == Filter(pre, DayIs(d)) + (if day == d then [r] else [])
            && Filter(pre + [r], DayIs(d - 1)) == Filter(pre, DayIs(d - 1)) + (if day == d - 1 then [r] else [])
            && Filter(pre + [r], DayIs(d - 2)) == Filter(pre, DayIs(d - 2)) + (if day == d - 2 then [r] else [])
            && Filter(pre + [r], Older(d))
               == Filter(pre, Older(d)) + (if day != d && day != d - 1 && day != d - 2 then [r] else [])
  {
    FilterSnoc(pre, r, DayIs(d));
    FilterSnoc(pre, r, DayIs(d - 1));
    FilterSnoc(pre, r, DayIs(d - 2));
    FilterSnoc(pre, r, Older(d));
  }

  /** The `forEach` of the overdue tab: each reminder goes to exactly one
      of today, yesterday, the day before yesterday and older. */
  method GroupOverdue(filtered: seq<Reminder>, now: int) returns (g: Groups)
    ensures g.OverdueGroups?
    ensures g.today == Filter(filtered, DayIs(DayOf(now)))
    ensures g.yesterday == Filter(filtered, DayIs(DayOf(now) - 1))
    ensures g.dayBeforeYesterday == Filter(filtered, DayIs(DayOf(now) - 2))
    ensures g.older == Filter(filtered, Older(DayOf(now)))
    ensures multiset(g.today) + multiset(g.yesterday) + multiset(g.dayBeforeYesterday) + multiset(g.older)
            == multiset(filtered)
  {
    var d := DayOf(now);
    var today, yesterday, dayBeforeYesterday, older := [], [], [], [];
    var i := 0;
    while i < |filtered|
      invariant 0 <= i <= |filtered|
      invariant today == Filter(filtered[..i], DayIs(d))
      invariant yesterday == Filter(filtered[..i], DayIs(d - 1))
      invariant dayBeforeYesterday == Filter(filtered[..i], DayIs(d - 2))
      invariant older == Filter(filtered[..i], Older(d))
    {
      var r := filtered[i];
      assert filtered[..i + 1] == filtered[..i] + [r];
      OverdueStep(filtered[..i], r, d);
      var day := DayOf(r.reminderTime);
      if day == d {
        today := today + [r];
      } else if day == d - 1 {
        yesterday := yesterday + [r];
      } else if day == d - 2 {
        dayBeforeYesterday := dayBeforeYesterday + [r];
      } else {
        older := older + [r];
      }
      i := i + 1;
    }
    assert filtered[..|filtered|] == filtered;
    OverduePartition(filtered, d);
    g := OverdueGroups(today, yesterday, dayBeforeYesterday, older);
  }

  /** `groupedReminders` for the active tab. */
  method GroupedReminders(filtered: seq<Reminder>, f: FilterType, now: int) returns (g: Groups)
    ensures f == Recent ==>
              (g.RecentGroups? && g.today == Filter(filtered, DayIs(DayOf(now)))
               && g.tomorrow == Filter(filtered, DayIs(DayOf(now) + 1))
               && g.dayAfter == Filter(filtered, DayIs(DayOf(now) + 2)))
    ensures f == Overdue ==>
              (g.OverdueGroups?
               && multiset(g.today) + multiset(g.yesterday) + multiset(g.dayBeforeYesterday) + multiset(g.older)
                  == multiset(filtered))
    ensures f != Recent && f != Overdue ==> g == NoGroups
  {
    if f == Recent {
      g := GroupRecent(filtered, now);
    } else if f == Overdue {
      g := GroupOverdue(filtered, now);
    } else {
      g := NoGroups;
    }
  }

  /** `isOverdue` of a card: the time must be readable (`None` for a
      missing or invalid date), the reminder open and the time past. */
  function IsOverdue(time: Option<int>, completed: bool, now: int): (r: bool)
    ensures r <==> time.Some? && !completed && time.value < now
  {
    time.Some? && !completed && time.value < now
  }

  /** A card marked overdue belongs to the overdue tab. */
  lemma OverdueCardOnOverdueTab(r: Reminder, now: int)
    requires IsOverdue(Some(r.reminderTime), r.completed, now)
    ensures Keeps(Overdue, r, now)
  {
  }

  /** The ids of the completed reminders, in list order. */
  function CompletedIds(reminders: seq<Reminder>): (r: seq<string>)
    ensures forall id :: id in r <==> exists x :: x in reminders && x.completed && x.id == id
    ensures |r| <= |reminders|
  {
    if reminders == [] then []
    else
      var rest := CompletedIds(reminders[1..]);
      assert forall x :: x in reminders[1..] ==> x in reminders;
      assert forall x :: x in reminders ==> x == reminders[0] || x in reminders[1..];
      if reminders[0].completed then [reminders[0].id] + rest else rest
  }

  /** What the panel asks of its parent. */
  datatype Request = Delete(id: string)

  function DeleteRequests(ids: seq<string>): (r: seq<Request>)
    ensures |r| == |ids| && forall k :: 0 <= k < |ids| ==> r[k] == Delete(ids[k])
  {
    seq(|ids|, k requires 0 <= k < |ids| => Delete(ids[k]))
  }

  /** The panel's own state and the requests it has sent. */
  class ReminderView {
    var activeFilter: FilterType
    var sent: seq<Request>

    constructor()
      ensures activeFilter == Recent && sent == []
    {
      activeFilter := Recent;
      sent := [];
    }

    method SetActiveFilter(f: FilterType)
      modifies this
      ensures activeFilter == f && sent == old(sent)
    {
      activeFilter := f;
    }

    /** `handleDeleteAllCompleted`: one delete request per completed
        reminder, in list order, and none for an open one. */
    method DeleteAllCompleted(reminders: seq<Reminder>)
      modifies this
      ensures sent == old(sent) + DeleteRequests(CompletedIds(reminders))
      ensures forall id :: Delete(id) in sent[|old(sent)|..] <==>
                exists x :: x in reminders && x.completed && x.id == id
      ensures activeFilter == old(activeFilter)
    {
      var completedIds := CompletedIds(reminders);
      sent := sent + DeleteRequests(completedIds);
      assert sent[|old(sent)|..] == DeleteRequests(completedIds);
      forall id ensures Delete(id) in sent[|old(sent)|..] <==> id in completedIds {
        if id in completedIds {
          var k :| 0 <= k < |completedIds| && completedIds[k] == id;
          assert DeleteRequests(completedIds)[k] == Delete(id);
        }
      }
    }
  }
}
