/** The activity web worker: one pass over the notes counts notes,
    reminders and completed reminders, collects the distinct tags and
    buckets completed reminders by the day they were last updated; the
    buckets become a date-ordered activity series with heat levels. */
module ActivityWorker {
  import opened Common

  datatype Reminder = Reminder(completed: bool, updatedAt: Option<int>)

  /** `reminders` is optional in the input (`note.reminders || []`). */
  datatype Note = Note(tags: seq<string>, reminders: Option<seq<Reminder>>)

  datatype Stats = Stats(
    totalNotes: nat,
    totalReminders: nat,
    completedReminders: nat,
    completionRate: real,
    tagsUsed: nat)

  /** One day of the series: a day number, the number of reminders
      completed that day and the heat level drawn for it. */
  datatype Activity = Activity(date: int, count: nat, level: nat)

  function RemindersOf(n: Note): seq<Reminder> {
    match n.reminders
    case None => []
    case Some(rs) => rs
  }

  /** Number of reminders over all notes; a missing list counts as none. */
  function ReminderTotal(notes: seq<Note>): nat {
    if notes == [] then 0
    else ReminderTotal(notes[..|notes| - 1]) + |RemindersOf(notes[|notes| - 1])|
  }

  function CompletedIn(rs: seq<Reminder>): (r: nat)
    ensures r <= |rs|
  {
    if rs == [] then 0
    else CompletedIn(rs[..|rs| - 1]) + (if rs[|rs| - 1].completed then 1 else 0)
  }

  /** Completed reminders over all notes: never more than all reminders. */
  function CompletedTotal(notes: seq<Note>): (r: nat)
    ensures r <= ReminderTotal(notes)
  {
    if notes == [] then 0
    else CompletedTotal(notes[..|notes| - 1]) + CompletedIn(RemindersOf(notes[|notes| - 1]))
  }

  /** The days of the completed reminders that carry an update time, in
      visiting order: at most one per completed reminder. */
  function DaysIn(rs: seq<Reminder>): (r: seq<int>)
    ensures |r| <= CompletedIn(rs)
  {
    if rs == [] then [] else DaysIn(rs[..|rs| - 1]) + DayOfCompletion(rs[|rs| - 1])
  }

  /** The bucket a reminder contributes to, if any. */
  function DayOfCompletion(r: Reminder): seq<int> {
    if r.completed && r.updatedAt.Some? then [DayOf(r.updatedAt.value)] else []
  }

  lemma VisitStep(before: seq<int>, rs: seq<Reminder>, j: nat)
    requires j < |rs|
    ensures before + DaysIn(rs[..j + 1]) == before + DaysIn(rs[..j]) + DayOfCompletion(rs[j])
    ensures CompletedIn(rs[..j + 1]) == CompletedIn(rs[..j]) + (if rs[j].completed then 1 else 0)
  {
    assert rs[..j + 1][..j] == rs[..j];
  }

  function CompletionDays(notes: seq<Note>): (r: seq<int>)
    ensures |r| <= CompletedTotal(notes)
  {
    if notes == [] then []
    else CompletionDays(notes[..|notes| - 1]) + DaysIn(RemindersOf(notes[|notes| - 1]))
  }

  function TagSet(notes: seq<Note>): set<string> {
    if notes == [] then {}
    else
      var last := notes[|notes| - 1];
      TagSet(notes[..|notes| - 1]) + (set t | t in last.tags)
  }

  /** `TagSet` is exactly the set of tags carried by some note
      (compared as exact strings). */
  lemma {:induction false} TagSetMembers(notes: seq<Note>, t: string)
    ensures t in TagSet(notes) <==> exists n :: n in notes && t in n.tags
  {
    if notes != [] {
      var init := notes[..|notes| - 1];
      TagSetMembers(init, t);
      assert notes == init + [notes[|notes| - 1]];
    }
  }

  /** `Math.min(4, Math.ceil(count / 2))`. */
  function Level(count: nat): (r: nat)
    ensures r <= 4
    ensures r == 0 <==> count == 0
    ensures r == 4 <==> count >= 7
    ensures r < 4 ==> count <= 2 * r < count + 2
  {
    if (count + 1) / 2 < 4 then (count + 1) / 2 else 4
  }

  function TotalCount(act: seq<Activity>): nat {
    if act == [] then 0 else TotalCount(act[..|act| - 1]) + act[|act| - 1].count
  }

  /** Completion rate in percent: 0 without reminders. */
  function Rate(completed: nat, total: nat): (r: real)
    requires completed <= total
    ensures total == 0 ==> r == 0.0
    ensures total > 0 ==> r * (total as real) == (completed as real) * 100.0
    ensures 0.0 <= r <= 100.0
  {
    if total > 0 then (completed as real) / (total as real) * 100.0 else 0.0
  }

  /** The day→count map after visiting the days `days` in order
      (`data.set(date, (data.get(date) || 0) + 1)` for each). */
  function Buckets(days: seq<int>): map<int, nat> {
    if days == [] then map[]
    else
      var m := Buckets(days[..|days| - 1]);
      var d := days[|days| - 1];
      m[d := (if d in m then m[d] else 0) + 1]
  }

  /** A day has a bucket iff it occurs, and the bucket holds the number
      of its occurrences. */
  lemma {:induction false} BucketsCount(days: seq<int>)
    ensures forall d :: d in Buckets(days) <==> d in days
    ensures forall d :: d in Buckets(days) ==> Buckets(days)[d] == multiset(days)[d]
  {
    if days != [] {
      var init := days[..|days| - 1];
      BucketsCount(init);
      assert days == init + [days[|days| - 1]];
    }
  }

  /** `BucketsCount` for one day. */
  lemma BucketsAt(days: seq<int>, d: int)
    ensures d in Buckets(days) <==> d in days
    ensures d in Buckets(days) ==> Buckets(days)[d] == multiset(days)[d]
  {
    BucketsCount(days);
  }

  /** Visiting one more day updates its bucket and, for a new day,
      appends it to the key order. */
  lemma BucketsSnoc(days: seq<int>, d: int)
    ensures Buckets(days + [d]) == Buckets(days)[d := (if d in Buckets(days) then Buckets(days)[d] else 0) + 1]
    ensures Dedupe(days + [d]) == if d in Buckets(days) then Dedupe(days) else Dedupe(days) + [d]
  {
    assert (days + [d])[..|days|] == days;
  }

  function ByDate(a: (int, nat), b: (int, nat)): bool { a.0 <= b.0 }

  lemma ByDateTotal()
    ensures TotalPreorder(ByDate)
  {
  }

  /** Sum over distinct keys of how often each occurs in `days`. */
  function CountsOver(keys: seq<int>, days: seq<int>): nat {
    if keys == [] then 0
    else CountsOver(keys[..|keys| - 1], days) + multiset(days)[keys[|keys| - 1]]
  }

  lemma {:induction false} CountsOverSnoc(keys: seq<int>, days: seq<int>, x: int)
    requires NoDups(keys)
    ensures CountsOver(keys, days + [x]) == CountsOver(keys, days) + (if x in keys then 1 else 0)
  {
    if keys != [] {
      var init := keys[..|keys| - 1];
      CountsOverSnoc(init, days, x);
      assert keys == init + [keys[|keys| - 1]];
    }
  }

  /** Counting every day once per distinct key gives the number of days. */
  lemma {:induction false} CountsOverAll(keys: seq<int>, days: seq<int>)
    requires NoDups(keys) && forall d :: d in days ==> d in keys
    ensures CountsOver(keys, days) == |days|
  {
    if days == [] {
      if keys != [] { CountsOverAll(keys[..|keys| - 1], days); }
    } else {
      var init := days[..|days| - 1];
      assert days == init + [days[|days| - 1]];
      CountsOverAll(keys, init);
      CountsOverSnoc(keys, init, days[|days| - 1]);
    }
  }

  lemma {:induction false} TotalCountOver(act: seq<Activity>, days: seq<int>)
    requires forall a :: a in act ==> a.count == multiset(days)[a.date]
    ensures TotalCount(act) == CountsOver(seq(|act|, k requires 0 <= k < |act| => act[k].date), days)
  {
    if act != [] {
      var init := act[..|act| - 1];
      TotalCountOver(init, days);
      var keys := seq(|act|, k requires 0 <= k < |act| => act[k].date);
      assert keys[..|keys| - 1] == seq(|init|, k requires 0 <= k < |init| => init[k].date);
    }
  }

  /** `Array.from(data.entries())`: the buckets in key insertion order. */
  function Entries(data: map<int, nat>, order: seq<int>): seq<(int, nat)>
    requires forall k :: 0 <= k < |order| ==> order[k] in data
  {
    seq(|order|, k requires 0 <= k < |order| => (order[k], data[order[k]]))
  }

  /** Each entry with its level. */
  function WithLevels(sorted: seq<(int, nat)>): seq<Activity> {
    seq(|sorted|, k requires 0 <= k < |sorted| => Activity(sorted[k].0, sorted[k].1, Level(sorted[k].1)))
  }

  /** The entries sorted by date, each with its level. */
  function Series(data: map<int, nat>, order: seq<int>): seq<Activity>
    requires forall k :: 0 <= k < |order| ==> order[k] in data
  {
    ByDateTotal();
    WithLevels(Sort(Entries(data, order), ByDate))
  }

  predicate CountedDay(e: (int, nat), days: seq<int>) {
    e.0 in days && e.1 == multiset(days)[e.0] && e.1 >= 1
  }

  lemma EntriesFacts(data: map<int, nat>, order: seq<int>, days: seq<int>)
    requires data == Buckets(days) && order == Dedupe(days)
    ensures forall k :: 0 <= k < |order| ==> order[k] in data
    ensures forall e :: e in Entries(data, order) ==> CountedDay(e, days)
    ensures NoDups(Entries(data, order))
    ensures forall d :: d in days ==> exists e :: e in Entries(data, order) && e.0 == d
  {
    forall k | 0 <= k < |order| ensures order[k] in data {
      assert order[k] in Dedupe(days);
      BucketsAt(days, order[k]);
    }
    var entries := Entries(data, order);
    forall e | e in entries ensures CountedDay(e, days) {
      var k :| 0 <= k < |entries| && entries[k] == e;
      assert order[k] in Dedupe(days);
      BucketsAt(days, order[k]);
    }
    forall d | d in days ensures exists e :: e in entries && e.0 == d {
      assert d in order;
      var k :| 0 <= k < |order| && order[k] == d;
      assert entries[k].0 == d;
    }
  }

  /** Sorting entries with distinct dates gives strictly increasing dates. */
  lemma SortedEntriesFacts(entries: seq<(int, nat)>, sorted: seq<(int, nat)>, days: seq<int>)
    requires multiset(sorted) == multiset(entries) && Sorted(sorted, ByDate)
    requires forall e :: e in entries ==> CountedDay(e, days)
    requires NoDups(entries)
    requires forall d :: d in days ==> exists e :: e in entries && e.0 == d
    ensures forall e :: e in sorted ==> CountedDay(e, days)
    ensures forall i, j :: 0 <= i < j < |sorted| ==> sorted[i].0 < sorted[j].0
    ensures forall d :: d in days ==> exists k :: 0 <= k < |sorted| && sorted[k].0 == d
  {
    forall e | e in sorted ensures CountedDay(e, days) {
      assert e in multiset(sorted);
    }
    MultisetNoDups(entries, sorted);
    forall i, j | 0 <= i < j < |sorted| ensures sorted[i].0 < sorted[j].0 {
      assert ByDate(sorted[i], sorted[j]);
      assert sorted[i] in sorted && sorted[j] in sorted;
    }
    forall d | d in days ensures exists k :: 0 <= k < |sorted| && sorted[k].0 == d {
      var e :| e in entries && e.0 == d;
      assert e in multiset(sorted);
      var k :| 0 <= k < |sorted| && sorted[k] == e;
    }
  }

  /** Levelling sorted, counted entries keeps their dates, counts and
      order, and the counts add up to the number of days. */
  lemma WithLevelsFacts(sorted: seq<(int, nat)>, days: seq<int>)
    requires forall e :: e in sorted ==> CountedDay(e, days)
    requires forall i, j :: 0 <= i < j < |sorted| ==> sorted[i].0 < sorted[j].0
    requires forall d :: d in days ==> exists k :: 0 <= k < |sorted| && sorted[k].0 == d
    ensures (set a | a in WithLevels(sorted) :: a.date) == (set d | d in days)
    ensures forall a :: a in WithLevels(sorted) ==>
              a.count == multiset(days)[a.date] && a.count >= 1
              && a.level == Level(a.count) && 1 <= a.level <= 4
    ensures forall i, j :: 0 <= i < j < |WithLevels(sorted)| ==>
              WithLevels(sorted)[i].date < WithLevels(sorted)[j].date
    ensures TotalCount(WithLevels(sorted)) == |days|
  {
    var activity := WithLevels(sorted);
    forall a | a in activity ensures a.count == multiset(days)[a.date] && a.count >= 1 {
      var k :| 0 <= k < |activity| && activity[k] == a;
      assert sorted[k] in sorted;
    }
    var keys := seq(|activity|, k requires 0 <= k < |activity| => activity[k].date);
    forall d | d in days ensures d in keys && d in (set a | a in activity :: a.date) {
      var k :| 0 <= k < |sorted| && sorted[k].0 == d;
      assert keys[k] == d;
      assert activity[k] in activity;
    }
    forall a | a in activity ensures a.date in days {
      var k :| 0 <= k < |activity| && activity[k] == a;
      assert sorted[k] in sorted;
    }
    assert NoDups(keys);
    TotalCountOver(activity, days);
    CountsOverAll(keys, days);
  }

  /** The series of the buckets of `days` has one entry per distinct day,
      in strictly increasing date order, each with that day's count and
      level, and its counts add up to the number of days. */
  lemma SeriesFacts(data: map<int, nat>, order: seq<int>, days: seq<int>)
    requires data == Buckets(days) && order == Dedupe(days)
    ensures forall k :: 0 <= k < |order| ==> order[k] in data
    ensures (set a | a in Series(data, order) :: a.date) == (set d | d in days)
    ensures forall a :: a in Series(data, order) ==>
              a.count == multiset(days)[a.date] && a.count >= 1
              && a.level == Level(a.count) && 1 <= a.level <= 4
    ensures forall i, j :: 0 <= i < j < |Series(data, order)| ==>
              Series(data, order)[i].date < Series(data, order)[j].date
    ensures TotalCount(Series(data, order)) == |days|
  {
    EntriesFacts(data, order, days);
    ByDateTotal();
    var entries := Entries(data, order);
    var sorted := Sort(entries, ByDate);
    SortedEntriesFacts(entries, sorted, days);
    WithLevelsFacts(sorted, days);
  }

  /** The tag loop of one note: `note.tags.forEach(tag => tags.add(tag))`. */
  method AddTags(tags: set<string>, noteTags: seq<string>) returns (r: set<string>)
    ensures r == tags + (set x | x in noteTags)
  {
    r := tags;
    var t := 0;
    while t < |noteTags|
      invariant 0 <= t <= |noteTags|
      invariant r == tags + (set x | x in noteTags[..t])
    {
      assert noteTags[..t + 1] == noteTags[..t] + [noteTags[t]];
      r := r + {noteTags[t]};
      t := t + 1;
    }
    assert noteTags[..t] == noteTags;
  }

  /** The reminder loop of one note: counts its reminders and completed
      reminders and buckets the completed ones by update day. */
  method VisitReminders(rs: seq<Reminder>, data0: map<int, nat>, order0: seq<int>,
                        ghost before: seq<int>)
    returns (data: map<int, nat>, order: seq<int>, total: nat, completed: nat)
    requires data0 == Buckets(before) && order0 == Dedupe(before)
    ensures total == |rs| && completed == CompletedIn(rs)
    ensures data == Buckets(before + DaysIn(rs)) && order == Dedupe(before + DaysIn(rs))
  {
    data, order, total, completed := data0, order0, 0, 0;
    var j := 0;
    ghost var seen := before;
    assert rs[..0] == [] && before + DaysIn(rs[..0]) == before;
    while j < |rs|
      invariant 0 <= j <= |rs|
      invariant total == j
      invariant completed == CompletedIn(rs[..j])
      invariant seen == before + DaysIn(rs[..j])
      invariant data == Buckets(seen) && order == Dedupe(seen)
    {
      var r := rs[j];
      VisitStep(before, rs, j);
      total := total + 1;
      if r.completed {
        completed := completed + 1;
        if r.updatedAt.Some? {
          var date := DayOf(r.updatedAt.value);
          data, order := AddDay(data, order, seen, date);
          seen := seen + [date];
        } else {
          assert seen + DayOfCompletion(r) == seen;
        }
      } else {
        assert seen + DayOfCompletion(r) == seen;
      }
      j := j + 1;
    }
    assert rs[..j] == rs;
  }

  /** `activityData[date] = (activityData[date] || 0) + 1`, with the key
      order of the object. */
  method AddDay(data: map<int, nat>, order: seq<int>, ghost seen: seq<int>, date: int)
    returns (data': map<int, nat>, order': seq<int>)
    requires data == Buckets(seen) && order == Dedupe(seen)
    ensures data' == Buckets(seen + [date]) && order' == Dedupe(seen + [date])
  {
    BucketsSnoc(seen, date);
    order' := if date in data then order else order + [date];
    var c := if date in data then data[date] else 0;
    data' := data[date := c + 1];
  }

  /** The totals over one more note. */
  lemma NoteStep(notes: seq<Note>, i: nat)
    requires i < |notes|
    ensures ReminderTotal(notes[..i + 1]) == ReminderTotal(notes[..i]) + |RemindersOf(notes[i])|
    ensures CompletedTotal(notes[..i + 1]) == CompletedTotal(notes[..i]) + CompletedIn(RemindersOf(notes[i]))
    ensures TagSet(notes[..i + 1]) == TagSet(notes[..i]) + (set x | x in notes[i].tags)
    ensures CompletionDays(notes[..i + 1]) == CompletionDays(notes[..i]) + DaysIn(RemindersOf(notes[i]))
  {
    assert notes[..i + 1][..i] == notes[..i];
  }

  /** The worker's message handler: statistics and the activity series. */
  method Calculate(notes: seq<Note>) returns (stats: Stats, activity: seq<Activity>)
    ensures stats.totalNotes == |notes|
    ensures stats.totalReminders == ReminderTotal(notes)
    ensures stats.completedReminders == CompletedTotal(notes)
    ensures stats.tagsUsed == |TagSet(notes)|
    ensures stats.completionRate == Rate(stats.completedReminders, stats.totalReminders)
    ensures (set a | a in activity :: a.date) == (set d | d in CompletionDays(notes))
    ensures forall a :: a in activity ==>
              a.count == multiset(CompletionDays(notes))[a.date] && a.count >= 1
              && a.level == Level(a.count) && 1 <= a.level <= 4
    ensures forall i, j :: 0 <= i < j < |activity| ==> activity[i].date < activity[j].date
    ensures TotalCount(activity) == |CompletionDays(notes)| <= stats.completedReminders
  {
    var data: map<int, nat> := map[];
    var order: seq<int> := [];
    var totalNotes, totalReminders, completedReminders := 0, 0, 0;
    var tags: set<string> := {};
    var i := 0;
    while i < |notes|
      invariant 0 <= i <= |notes|
      invariant totalNotes == i
      invariant totalReminders == ReminderTotal(notes[..i])
      invariant completedReminders == CompletedTotal(notes[..i])
      invariant tags == TagSet(notes[..i])
      invariant data == Buckets(CompletionDays(notes[..i]))
      invariant order == Dedupe(CompletionDays(notes[..i]))
    {
      var note := notes[i];
      NoteStep(notes, i);
      totalNotes := totalNotes + 1;
      tags := AddTags(tags, note.tags);
      var n, c;
      data, order, n, c := VisitReminders(RemindersOf(note), data, order, CompletionDays(notes[..i]));
      totalReminders := totalReminders + n;
      completedReminders := completedReminders + c;
      i := i + 1;
    }
    assert notes[..i] == notes;
    SeriesFacts(data, order, CompletionDays(notes));
    activity := Series(data, order);
    stats := Stats(totalNotes, totalReminders, completedReminders,
                   Rate(completedReminders, totalReminders), |tags|);
  }
}
