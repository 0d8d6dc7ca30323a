/** The dashboard's reminder view (`ReminderView`): it extracts the
    `@value.` reminders of every note with its own small time rules,
    gives each an id that carries a per-note match index, sorts them by
    time, filters them by the selected tab, groups them into overdue,
    today, tomorrow and upcoming, and keeps a per-id map of completion and
    notification switches. */
module DashboardReminder {
  import opened Common
  import NoteParser

  datatype Note = Note(id: string, title: string, content: Option<string>)

  datatype Reminder = Reminder(id: string, noteId: string, noteTitle: string, noteContent: string,
                               reminderText: string, reminderTime: int,
                               completed: bool, enabled: bool)

  /** An entry of `reminderStates`. */
  datatype ReminderState = ReminderState(completed: bool, enabled: bool)

  /* ---------------------------------------------------------------------
     Time rules
     --------------------------------------------------------------------- */

  /** `(\d+)시` can match at `k`: a digit run starts there and `시`
      follows its end. */
  predicate HourAt(s: string, k: nat) {
    k < |s| && IsDigit(s[k]) && NoteParser.SkipAllDigits(s, k) < |s|
    && s[NoteParser.SkipAllDigits(s, k)] == '시'
  }

  /** The leftmost match of `(\d+)시` at or after `i`: the digit run
      `s[at..end]`, with `시` at `end`. */
  function HourMatch(s: string, i: nat): (r: Option<NoteParser.Span>)
    requires i <= |s|
    ensures r.Some? ==> i <= r.value.at < r.value.end < |s| && HourAt(s, r.value.at)
                        && r.value.end == NoteParser.SkipAllDigits(s, r.value.at)
    decreases |s| - i
  {
    if i == |s| then None
    else if IsDigit(s[i]) then
      var j := NoteParser.SkipAllDigits(s, i);
      if j < |s| && s[j] == '시' then Some(NoteParser.Span(i, j)) else HourMatch(s, j)
    else HourMatch(s, i + 1)
  }

  /** Inside a digit run every start reaches the same end. */
  lemma {:induction false} SkipAllDigitsFrom(s: string, i: nat, k: nat)
    requires i <= |s| && i <= k <= NoteParser.SkipAllDigits(s, i)
    ensures NoteParser.SkipAllDigits(s, k) == NoteParser.SkipAllDigits(s, i)
    decreases k - i
  {
    if i < k {
      SkipAllDigitsFrom(s, i + 1, k);
    }
  }

  /** `match` finds the leftmost position where the pattern matches. */
  lemma {:induction false} HourMatchIsFirst(s: string, i: nat)
    requires i <= |s|
    ensures HourMatch(s, i).Some? ==> forall k :: i <= k < HourMatch(s, i).value.at ==> !HourAt(s, k)
    ensures HourMatch(s, i).None? ==> forall k :: i <= k < |s| ==> !HourAt(s, k)
    decreases |s| - i
  {
    if i < |s| {
      if IsDigit(s[i]) {
        var j := NoteParser.SkipAllDigits(s, i);
        if !(j < |s| && s[j] == '시') {
          HourMatchIsFirst(s, j);
          forall k | i <= k < j ensures !HourAt(s, k) {
            SkipAllDigitsFrom(s, i, k);
          }
        }
      } else {
        HourMatchIsFirst(s, i + 1);
      }
    }
  }

  /** `^\d{4}-\d{2}-\d{2}$`. */
  predicate IsIsoDate(s: string) {
    |s| == 10 && s[4] == '-' && s[7] == '-'
    && DigitString(s[..4]) && DigitString(s[5..7]) && DigitString(s[8..])
  }

  /** `if (reminderTime < now) reminderTime = addDays(reminderTime, 1)`. */
  function PushPast(t: int, now: int): (r: int)
    ensures r == t || r == t + Day
    ensures now - Day <= t ==> now <= r
  {
    if t < now then t + Day else t
  }

  /** `setHours(hour, 0, 0, 0)` on today, pushed a day on when past. */
  function AtHour(hour: nat, now: int): int {
    PushPast(StartOfDay(now) + hour * Hour, now)
  }

  lemma AtHourWindow(hour: nat, now: int)
    requires hour <= 23
    ensures now <= AtHour(hour, now) < now + Day
    ensures (AtHour(hour, now) - StartOfDay(now)) % Hour == 0
  {
    assert hour * Hour <= 23 * Hour;
    assert (hour * Hour) % Hour == 0;
    assert ((hour * Hour) + Day) % Hour == 0;
  }

  /** The time of a reminder whose text is `value`, or `None` when the
      text is none of the forms the view understands. */
  function ReminderTime(value: string, now: int): (r: Option<int>)
  {
    if value == "오늘" then Some(StartOfDay(now) + 9 * Hour)
    else if value == "내일" then Some(StartOfDay(now) + Day + 9 * Hour)
    else if value == "모레" then Some(StartOfDay(now) + 2 * Day + 9 * Hour)
    else if Contains(value, "시") then
      match HourMatch(value, 0)
      case None => None
      case Some(m) =>
        var hour := DigitsValue(value[m.at..m.end]);
        if hour <= 23 then Some(AtHour(hour, now)) else None
    else if IsIsoDate(value) then
      Some(LocalTime(DigitsValue(value[..4]), DigitsValue(value[5..7]) - 1, DigitsValue(value[8..]), 9, 0))
    else None
  }

  /** Which texts become reminders: the three day words, a text with `시`
      whose first `N시` has `N <= 23`, and an exact `YYYY-MM-DD` date. */
  lemma ReminderTimeDefined(value: string, now: int)
    ensures ReminderTime(value, now).Some? <==>
              value == "오늘" || value == "내일" || value == "모레"
              || (Contains(value, "시") && HourMatch(value, 0).Some?
                  && DigitsValue(value[HourMatch(value, 0).value.at..HourMatch(value, 0).value.end]) <= 23)
              || (!Contains(value, "시") && IsIsoDate(value))
  {
  }

  /** A day word gives 09:00 on today, tomorrow or the day after. */
  lemma DayWordAtNine(value: string, now: int, offset: int)
    requires 0 <= offset < 3 && value == ["오늘", "내일", "모레"][offset]
    ensures ReminderTime(value, now).Some?
    ensures DayOf(ReminderTime(value, now).value) == DayOf(now) + offset
    ensures ReminderTime(value, now).value - StartOfDay(ReminderTime(value, now).value) == 9 * Hour
  {
    var t := ReminderTime(value, now).value;
    assert t == (DayOf(now) + offset) * Day + 9 * Hour;
    NoteParser.DayOfShift(DayOf(now) + offset, 9 * Hour);
  }

  /** An hour is the next occurrence of that full hour: never before
      `now`, less than a day after it, and on the hour. */
  lemma HourWithinDay(value: string, now: int)
    requires value != "오늘" && value != "내일" && value != "모레" && Contains(value, "시")
    requires ReminderTime(value, now).Some?
    ensures now <= ReminderTime(value, now).value < now + Day
    ensures (ReminderTime(value, now).value - StartOfDay(now)) % Hour == 0
  {
    var m := HourMatch(value, 0).value;
    var hour := DigitsValue(value[m.at..m.end]);
    AtHourWindow(hour, now);
  }

  /* ---------------------------------------------------------------------
     Ids
     --------------------------------------------------------------------- */

  /** `${note.id}-${reminderText}-${reminderTime.getTime()}-${matchIndex}`. */
  function Id(noteId: string, text: string, time: int, index: nat): string {
    noteId + "-" + text + "-" + IntText(time) + "-" + Decimal(index)
  }

  /** The text after the last `-`. */
  function AfterLastDash(s: string): (r: string)
    ensures '-' !in r
  {
    if s == [] then []
    else if s[|s| - 1] == '-' then []
    else AfterLastDash(s[..|s| - 1]) + [s[|s| - 1]]
  }

  lemma {:induction false} AfterLastDashOf(a: string, d: string)
    requires '-' !in d
    ensures AfterLastDash(a + "-" + d) == d
    decreases |d|
  {
    if d == [] {
      assert a + "-" + d == a + "-";
    } else {
      var init := d[..|d| - 1];
      AfterLastDashOf(a, init);
      assert (a + "-" + d)[..|a + "-" + d| - 1] == a + "-" + init;
      assert init + [d[|d| - 1]] == d;
    }
  }

  /** Ids with different match indices differ, whatever the note, text
      and time: two matches of one note never share an id. */
  lemma IdsDiffer(n1: string, x1: string, t1: int, i: nat, n2: string, x2: string, t2: int, j: nat)
    requires i != j
    ensures Id(n1, x1, t1, i) != Id(n2, x2, t2, j)
  {
    NoDashInDigits(Decimal(i));
    NoDashInDigits(Decimal(j));
    AfterLastDashOf(n1 + "-" + x1 + "-" + IntText(t1), Decimal(i));
    AfterLastDashOf(n2 + "-" + x2 + "-" + IntText(t2), Decimal(j));
    DecimalRoundTrip(i);
    DecimalRoundTrip(j);
  }

  lemma NoDashInDigits(d: string)
    requires DigitString(d)
    ensures '-' !in d
  {
    forall k | 0 <= k < |d| ensures d[k] != '-' {
      assert IsDigit(d[k]);
    }
  }

  /* ---------------------------------------------------------------------
     Extraction
     --------------------------------------------------------------------- */

  /** `note.content || ''`. */
  function Content(note: Note): string {
    if note.content.Some? then note.content.value else ""
  }

  /** `content.substring(0, 100).replace(/<[^>]*>/g, '')`. */
  function Preview(content: string): (r: string)
    ensures |r| <= 100
  {
    StripTags(if |content| <= 100 then content else content[..100])
  }

  /** `reminderStates[id]?.completed || false`. */
  function CompletedIn(states: map<string, ReminderState>, id: string): bool {
    id in states && states[id].completed
  }

  /** `reminderStates[id]?.enabled ?? true`. */
  function EnabledIn(states: map<string, ReminderState>, id: string): bool {
    if id in states then states[id].enabled else true
  }

  /** The reminder a match gives as the `index`-th kept match of its note. */
  function Make(note: Note, m: NoteParser.RawMatch, index: nat, states: map<string, ReminderState>,
                now: int): (r: Option<Reminder>)
    ensures r.Some? <==> ReminderTime(m.capture, now).Some?
    ensures r.Some? ==> r.value.reminderTime == ReminderTime(m.capture, now).value
                        && r.value.reminderText == m.whole && r.value.noteId == note.id
                        && r.value.id == Id(note.id, m.whole, r.value.reminderTime, index)
                        && r.value.completed == CompletedIn(states, r.value.id)
                        && r.value.enabled == EnabledIn(states, r.value.id)
  {
    match ReminderTime(m.capture, now)
    case None => None
    case Some(t) =>
      var id := Id(note.id, m.whole, t, index);
      Some(Reminder(id, note.id, note.title, Preview(Content(note)), m.whole, t,
                    CompletedIn(states, id), EnabledIn(states, id)))
  }

  /** The reminders of the matches `ms`, the first kept one numbered
      `index`. */
  function Build(note: Note, ms: seq<NoteParser.RawMatch>, index: nat, states: map<string, ReminderState>,
                 now: int): (r: seq<Reminder>)
    ensures |r| <= |ms|
    decreases |ms|
  {
    if ms == [] then []
    else
      var head := Make(note, ms[0], index, states, now);
      if head.Some? then [head.value] + Build(note, ms[1..], index + 1, states, now)
      else Build(note, ms[1..], index, states, now)
  }

  function NoteReminders(note: Note, states: map<string, ReminderState>, now: int): seq<Reminder> {
    Build(note, NoteParser.ReminderMatches(Content(note), 0, true), 0, states, now)
  }

  /** `r` is the reminder numbered `index` of `note`: its id carries the
      index, and its switches are the stored ones. */
  predicate Numbered(r: Reminder, note: Note, index: nat, states: map<string, ReminderState>) {
    r.id == Id(note.id, r.reminderText, r.reminderTime, index) && r.noteId == note.id
    && r.completed == CompletedIn(states, r.id) && r.enabled == EnabledIn(states, r.id)
  }

  predicate AllNumbered(rs: seq<Reminder>, note: Note, index: nat, states: map<string, ReminderState>) {
    forall k :: 0 <= k < |rs| ==> Numbered(rs[k], note, index + k, states)
  }

  lemma AllNumberedCons(r: Reminder, rs: seq<Reminder>, note: Note, index: nat, states: map<string, ReminderState>)
    requires Numbered(r, note, index, states) && AllNumbered(rs, note, index + 1, states)
    ensures AllNumbered([r] + rs, note, index, states)
  {
    forall k | 0 < k < |[r] + rs| ensures Numbered(([r] + rs)[k], note, index + k, states) {
      assert ([r] + rs)[k] == rs[k - 1];
    }
  }

  /** The `k`-th reminder built carries match index `index + k`, the
      note's id, its time rule and the stored switches. */
  lemma {:induction false} BuildFacts(note: Note, ms: seq<NoteParser.RawMatch>, index: nat,
                                      states: map<string, ReminderState>, now: int)
    ensures AllNumbered(Build(note, ms, index, states, now), note, index, states)
    decreases |ms|
  {
    if ms != [] {
      BuildHead(note, ms, index, states, now);
      var h := Make(note, ms[0], index, states, now);
      if h.Some? {
        BuildFacts(note, ms[1..], index + 1, states, now);
        AllNumberedCons(h.value, Build(note, ms[1..], index + 1, states, now), note, index, states);
      } else {
        BuildFacts(note, ms[1..], index, states, now);
      }
    }
  }

  /** Within one note no two reminders share an id, even when the same
      `@value.` occurs several times. */
  lemma NoteIdsDistinct(note: Note, states: map<string, ReminderState>, now: int)
    ensures forall j, k :: 0 <= j < k < |NoteReminders(note, states, now)| ==>
              NoteReminders(note, states, now)[j].id != NoteReminders(note, states, now)[k].id
  {
    var rs := NoteReminders(note, states, now);
    BuildFacts(note, NoteParser.ReminderMatches(Content(note), 0, true), 0, states, now);
    forall j, k | 0 <= j < k < |rs| ensures rs[j].id != rs[k].id {
      assert Numbered(rs[j], note, j, states) && Numbered(rs[k], note, k, states);
      IdsDiffer(note.id, rs[j].reminderText, rs[j].reminderTime, j,
                note.id, rs[k].reminderText, rs[k].reminderTime, k);
    }
  }

  /** Every note's reminders, note after note. */
  function AllReminders(notes: seq<Note>, states: map<string, ReminderState>, now: int): seq<Reminder> {
    if notes == [] then []
    else AllReminders(notes[..|notes| - 1], states, now) + NoteReminders(notes[|notes| - 1], states, now)
  }

  /** `(a, b) => a.reminderTime.getTime() - b.reminderTime.getTime()`. */
  function ByTime(): (Reminder, Reminder) -> bool {
    (a: Reminder, b: Reminder) => a.reminderTime <= b.reminderTime
  }

  lemma ByTimeTotal()
    ensures TotalPreorder(ByTime())
  {
  }

  /** What the extraction effect stores in `reminders`. */
  function Extracted(notes: seq<Note>, states: map<string, ReminderState>, now: int): (r: seq<Reminder>)
    ensures multiset(r) == multiset(AllReminders(notes, states, now))
    ensures forall i, j :: 0 <= i < j < |r| ==> r[i].reminderTime <= r[j].reminderTime
  {
    ByTimeTotal();
    Sort(AllReminders(notes, states, now), ByTime())
  }

  /** One `exec` step: the matches from `i` are the hit and the matches
      after it. */
  lemma MatchesStep(s: string, i: nat)
    requires i <= |s| && NoteParser.NextReminder(s, i, true).Some?
    ensures NoteParser.ReminderMatches(s, i, true) != []
    ensures NoteParser.ReminderMatches(s, i, true)[0] == NoteParser.RawOf(s, NoteParser.NextReminder(s, i, true).value)
    ensures NoteParser.ReminderMatches(s, i, true)[1..]
            == NoteParser.ReminderMatches(s, NoteParser.NextReminder(s, i, true).value.end, true)
  {
  }

  lemma BuildHead(note: Note, ms: seq<NoteParser.RawMatch>, index: nat, states: map<string, ReminderState>, now: int)
    requires ms != []
    ensures Make(note, ms[0], index, states, now).Some? ==>
              Build(note, ms, index, states, now)
              == [Make(note, ms[0], index, states, now).value] + Build(note, ms[1..], index + 1, states, now)
    ensures Make(note, ms[0], index, states, now).None? ==>
              Build(note, ms, index, states, now) == Build(note, ms[1..], index, states, now)
  {
  }

  /** The `while (exec)` loop of one note. */
  method ExtractFromNote(note: Note, states: map<string, ReminderState>, now: int)
    returns (found: seq<Reminder>)
    ensures found == NoteReminders(note, states, now)
  {
    var content := Content(note);
    var lastIndex := 0;
    var matchIndex := 0;
    found := [];
    var hit := NoteParser.NextReminder(content, lastIndex, true);
    while hit.Some?
      invariant lastIndex <= |content|
      invariant hit == NoteParser.NextReminder(content, lastIndex, true)
      invariant found + Build(note, NoteParser.ReminderMatches(content, lastIndex, true), matchIndex, states, now)
                == NoteReminders(note, states, now)
      decreases |content| - lastIndex
    {
      var m := NoteParser.RawOf(content, hit.value);
      MatchesStep(content, lastIndex);
      BuildHead(note, NoteParser.ReminderMatches(content, lastIndex, true), matchIndex, states, now);
      var made := Make(note, m, matchIndex, states, now);
      if made.Some? {
        found := found + [made.value];
        matchIndex := matchIndex + 1;
      }
      lastIndex := hit.value.end;
      hit := NoteParser.NextReminder(content, lastIndex, true);
    }
    assert found + [] == found;
  }

  /** The extraction effect: every note's reminders, sorted by time. */
  method ExtractReminders(notes: seq<Note>, states: map<string, ReminderState>, now: int)
    returns (rs: seq<Reminder>)
    ensures rs == Extracted(notes, states, now)
  {
    var extracted := [];
    for n := 0 to |notes|
      invariant extracted == AllReminders(notes[..n], states, now)
    {
      assert notes[..n + 1][..n] == notes[..n];
      var found := ExtractFromNote(notes[n], states, now);
      extracted := extracted + found;
    }
    assert notes[..|notes|] == notes;
    ByTimeTotal();
    rs := Sort(extracted, ByTime());
  }

  /* ---------------------------------------------------------------------
     Filters and groups
     --------------------------------------------------------------------- */

  datatype ViewFilter = TodayTab | TomorrowTab | UpcomingTab | AllTab

  /** `isWithinInterval(date, { start, end })`. */
  predicate Within(t: int, start: int, end: int) {
    start <= t <= end
  }

  /** `endOfDay`: 23:59:59.999 of the day. */
  function EndOfDay(t: int): int {
    StartOfDay(t) + Day - 1
  }

  /** The test `filteredReminders` applies. */
  predicate Shown(r: Reminder, f: ViewFilter, now: int) {
    var date := StartOfDay(r.reminderTime);
    var today := StartOfDay(now);
    var tomorrow := StartOfDay(now + Day);
    !r.completed &&
    match f
    case TodayTab => Within(date, today, EndOfDay(today))
    case TomorrowTab => Within(date, tomorrow, EndOfDay(tomorrow))
    case UpcomingTab => date > tomorrow
    case AllTab => true
  }

  function Filtered(rs: seq<Reminder>, f: ViewFilter, now: int): seq<Reminder> {
    Filter(rs, r => Shown(r, f, now))
  }

  /** The day of the start of the next day. */
  lemma NextDayStart(now: int)
    ensures StartOfDay(now + Day) == StartOfDay(now) + Day
    ensures DayOf(now + Day) == DayOf(now) + 1
  {
    assert now + Day == (DayOf(now) + 1) * Day + (now - StartOfDay(now));
    NoteParser.DayOfShift(DayOf(now) + 1, now - StartOfDay(now));
  }

  /** A day's interval holds exactly the midnights of that day. */
  lemma WithinDay(t: int, d: int)
    ensures Within(StartOfDay(t), StartOfDay(d), EndOfDay(StartOfDay(d))) <==> DayOf(t) == DayOf(d)
  {
    assert StartOfDay(StartOfDay(d)) == StartOfDay(d) by {
      NoteParser.DayOfShift(DayOf(d), 0);
    }
  }

  /** The tabs by day: today, tomorrow, from the day after on; completed
      reminders are never shown. */
  lemma ShownDays(r: Reminder, now: int)
    ensures Shown(r, TodayTab, now) <==> !r.completed && DayOf(r.reminderTime) == DayOf(now)
    ensures Shown(r, TomorrowTab, now) <==> !r.completed && DayOf(r.reminderTime) == DayOf(now) + 1
    ensures Shown(r, UpcomingTab, now) <==> !r.completed && DayOf(r.reminderTime) > DayOf(now) + 1
    ensures Shown(r, AllTab, now) <==> !r.completed
  {
    NextDayStart(now);
    WithinDay(r.reminderTime, now);
    WithinDay(r.reminderTime, now + Day);
  }

  /** The today, tomorrow and upcoming tabs never share a reminder, and
      none of them shows a completed one. */
  lemma TabsDisjoint(rs: seq<Reminder>, now: int)
    ensures forall r :: r in Filtered(rs, TodayTab, now) ==> r !in Filtered(rs, TomorrowTab, now) && r !in Filtered(rs, UpcomingTab, now)
    ensures forall r :: r in Filtered(rs, TomorrowTab, now) ==> r !in Filtered(rs, UpcomingTab, now)
    ensures forall f, r :: r in Filtered(rs, f, now) ==> r in rs && !r.completed
  {
    forall r | r in rs {
      ShownDays(r, now);
    }
  }

  datatype Group = Overdue | DueToday | DueTomorrow | Later

  /** The branch of `groupedReminders` a reminder takes; `isToday`
      compares the calendar date with today's. */
  function GroupOf(r: Reminder, now: int): Group {
    var date := StartOfDay(r.reminderTime);
    var today := StartOfDay(now);
    var tomorrow := StartOfDay(now + Day);
    if r.reminderTime < now && DayOf(r.reminderTime) != DayOf(now) then Overdue
    else if Within(date, today, EndOfDay(today)) then DueToday
    else if Within(date, tomorrow, EndOfDay(tomorrow)) then DueTomorrow
    else Later
  }

  /** The group depends on the day alone: before today, today, tomorrow
      or later; a reminder earlier today is not overdue. */
  lemma GroupDays(r: Reminder, now: int)
    ensures GroupOf(r, now) == Overdue <==> DayOf(r.reminderTime) < DayOf(now)
    ensures GroupOf(r, now) == DueToday <==> DayOf(r.reminderTime) == DayOf(now)
    ensures GroupOf(r, now) == DueTomorrow <==> DayOf(r.reminderTime) == DayOf(now) + 1
    ensures GroupOf(r, now) == Later <==> DayOf(r.reminderTime) > DayOf(now) + 1
  {
    NextDayStart(now);
    WithinDay(r.reminderTime, now);
    WithinDay(r.reminderTime, now + Day);
    assert r.reminderTime < now ==> DayOf(r.reminderTime) <= DayOf(now);
    assert DayOf(r.reminderTime) < DayOf(now) ==> r.reminderTime < now;
  }

  /** `r => f(r) == g`. */
  function Is(f: Reminder -> Group, g: Group): Reminder -> bool {
    r => f(r) == g
  }

  function GroupFn(now: int): Reminder -> Group {
    r => GroupOf(r, now)
  }

  function InGroup(rs: seq<Reminder>, g: Group, now: int): seq<Reminder> {
    Filter(rs, Is(GroupFn(now), g))
  }

  lemma InGroupCons(rs: seq<Reminder>, f: Reminder -> Group, g: Group)
    requires rs != []
    ensures |Filter(rs, Is(f, g))| == (if f(rs[0]) == g then 1 else 0) + |Filter(rs[1..], Is(f, g))|
  {
  }

  lemma InGroupSnoc(rs: seq<Reminder>, r: Reminder, g: Group, now: int)
    ensures InGroup(rs + [r], g, now) == InGroup(rs, g, now) + (if GroupOf(r, now) == g then [r] else [])
  {
    FilterConcat(rs, [r], Is(GroupFn(now), g));
  }

  /** The four groups split the list: together they hold every reminder,
      as often as the list does. */
  lemma {:induction false} PartitionBy(rs: seq<Reminder>, f: Reminder -> Group)
    ensures |Filter(rs, Is(f, Overdue))| + |Filter(rs, Is(f, DueToday))|
            + |Filter(rs, Is(f, DueTomorrow))| + |Filter(rs, Is(f, Later))| == |rs|
  {
    if rs != [] {
      PartitionBy(rs[1..], f);
      InGroupCons(rs, f, Overdue);
      InGroupCons(rs, f, DueToday);
      InGroupCons(rs, f, DueTomorrow);
      InGroupCons(rs, f, Later);
    }
  }

  /** The four groups split the list: each reminder is in the group
      `GroupOf` names and in no other, and the four lengths add up to the
      list's. */
  lemma GroupsPartition(rs: seq<Reminder>, now: int)
    ensures |InGroup(rs, Overdue, now)| + |InGroup(rs, DueToday, now)|
            + |InGroup(rs, DueTomorrow, now)| + |InGroup(rs, Later, now)| == |rs|
    ensures forall r, g :: r in InGroup(rs, g, now) <==> r in rs && GroupOf(r, now) == g
  {
    PartitionBy(rs, GroupFn(now));
  }

  lemma GroupsStep(rs: seq<Reminder>, k: nat, now: int)
    requires k < |rs|
    ensures forall g :: InGroup(rs[..k + 1], g, now) == InGroup(rs[..k], g, now) + (if GroupOf(rs[k], now) == g then [rs[k]] else [])
  {
    assert rs[..k + 1] == rs[..k] + [rs[k]];
    forall g {
      InGroupSnoc(rs[..k], rs[k], g, now);
    }
  }

  /** The `forEach` of `groupedReminders`. */
  method GroupReminders(filtered: seq<Reminder>, now: int)
    returns (overdue: seq<Reminder>, today: seq<Reminder>, tomorrow: seq<Reminder>, upcoming: seq<Reminder>)
    ensures overdue == InGroup(filtered, Overdue, now) && today == InGroup(filtered, DueToday, now)
    ensures tomorrow == InGroup(filtered, DueTomorrow, now) && upcoming == InGroup(filtered, Later, now)
  {
    overdue, today, tomorrow, upcoming := [], [], [], [];
    for k := 0 to |filtered|
      invariant overdue == InGroup(filtered[..k], Overdue, now) && today == InGroup(filtered[..k], DueToday, now)
      invariant tomorrow == InGroup(filtered[..k], DueTomorrow, now) && upcoming == InGroup(filtered[..k], Later, now)
    {
      var r := filtered[k];
      GroupsStep(filtered, k, now);
      var g := GroupOf(r, now);
      if g == Overdue {
        overdue := overdue + [r];
      } else if g == DueToday {
        today := today + [r];
      } else if g == DueTomorrow {
        tomorrow := tomorrow + [r];
      } else {
        upcoming := upcoming + [r];
      }
    }
    assert filtered[..|filtered|] == filtered;
  }

  /* ---------------------------------------------------------------------
     The switches
     --------------------------------------------------------------------- */

  /** `handleMarkCompleted`'s update of the map. */
  function MarkState(states: map<string, ReminderState>, id: string, completed: bool): map<string, ReminderState> {
    states[id := ReminderState(completed, EnabledIn(states, id))]
  }

  /** `handleToggleReminder`'s update of the map. */
  function ToggleState(states: map<string, ReminderState>, id: string, enabled: bool): map<string, ReminderState> {
    states[id := ReminderState(CompletedIn(states, id), enabled)]
  }

  /** Marking sets the completion of that id only and keeps its switch;
      toggling sets the switch of that id only and keeps its completion. */
  lemma SwitchesIndependent(states: map<string, ReminderState>, id: string, b: bool)
    ensures CompletedIn(MarkState(states, id, b), id) == b
    ensures EnabledIn(MarkState(states, id, b), id) == EnabledIn(states, id)
    ensures EnabledIn(ToggleState(states, id, b), id) == b
    ensures CompletedIn(ToggleState(states, id, b), id) == CompletedIn(states, id)
    ensures forall x :: x != id ==>
              CompletedIn(MarkState(states, id, b), x) == CompletedIn(states, x)
              && EnabledIn(MarkState(states, id, b), x) == EnabledIn(states, x)
              && CompletedIn(ToggleState(states, id, b), x) == CompletedIn(states, x)
              && EnabledIn(ToggleState(states, id, b), x) == EnabledIn(states, x)
  {
  }

  function IdsOf(rs: seq<Reminder>): set<string> {
    set r | r in rs :: r.id
  }

  /** `newStates` of the global switch: every listed id with its
      completion and the new switch value. */
  function GlobalStates(rs: seq<Reminder>, states: map<string, ReminderState>, enabled: bool)
    : (r: map<string, ReminderState>)
    ensures r.Keys == IdsOf(rs)
    ensures forall id :: id in r ==> r[id] == ReminderState(CompletedIn(states, id), enabled)
  {
    if rs == [] then map[]
    else
      var last := rs[|rs| - 1];
      GlobalStates(rs[..|rs| - 1], states, enabled)[last.id := ReminderState(CompletedIn(states, last.id), enabled)]
  }

  /** After the global switch every listed reminder has the new switch
      value and its old completion; other ids are untouched. */
  lemma GlobalSwitchFacts(rs: seq<Reminder>, states: map<string, ReminderState>, enabled: bool)
    ensures forall k :: 0 <= k < |rs| ==>
              EnabledIn(states + GlobalStates(rs, states, enabled), rs[k].id) == enabled
              && CompletedIn(states + GlobalStates(rs, states, enabled), rs[k].id) == CompletedIn(states, rs[k].id)
    ensures forall id :: (forall k :: 0 <= k < |rs| ==> rs[k].id != id) ==>
              EnabledIn(states + GlobalStates(rs, states, enabled), id) == EnabledIn(states, id)
              && CompletedIn(states + GlobalStates(rs, states, enabled), id) == CompletedIn(states, id)
  {
  }

  /** A call the view makes to its parent. */
  datatype Call = ToggleCall(id: string, enabled: bool) | CompletedCall(id: string, completed: bool)

  function ToggleCalls(rs: seq<Reminder>, enabled: bool): (r: seq<Call>)
    ensures |r| == |rs|
    ensures forall k :: 0 <= k < |rs| ==> r[k] == ToggleCall(rs[k].id, enabled)
  {
    seq(|rs|, k requires 0 <= k < |rs| => ToggleCall(rs[k].id, enabled))
  }

  lemma GlobalStep(rs: seq<Reminder>, k: nat, states: map<string, ReminderState>, enabled: bool)
    requires k < |rs|
    ensures GlobalStates(rs[..k + 1], states, enabled)
            == GlobalStates(rs[..k], states, enabled)[rs[k].id := ReminderState(CompletedIn(states, rs[k].id), enabled)]
  {
    assert rs[..k + 1][..k] == rs[..k];
  }

  lemma CallsStep(rs: seq<Reminder>, k: nat, enabled: bool)
    requires k < |rs|
    ensures ToggleCalls(rs[..k + 1], enabled) == ToggleCalls(rs[..k], enabled) + [ToggleCall(rs[k].id, enabled)]
  {
  }

  /** The loop of the global switch: the new entries and the calls made. */
  method SwitchAll(rs: seq<Reminder>, states: map<string, ReminderState>, enabled: bool)
    returns (newStates: map<string, ReminderState>, newCalls: seq<Call>)
    ensures newStates == GlobalStates(rs, states, enabled)
    ensures newCalls == ToggleCalls(rs, enabled)
  {
    newStates, newCalls := map[], [];
    for k := 0 to |rs|
      invariant newStates == GlobalStates(rs[..k], states, enabled)
      invariant newCalls == ToggleCalls(rs[..k], enabled)
    {
      GlobalStep(rs, k, states, enabled);
      CallsStep(rs, k, enabled);
      newStates := newStates[rs[k].id := ReminderState(CompletedIn(states, rs[k].id), enabled)];
      newCalls := newCalls + [ToggleCall(rs[k].id, enabled)];
    }
    assert rs[..|rs|] == rs;
  }

  /** The view's state: the notes it was given, the selected tab, the
      extracted reminders, the switch map, the global switch and the calls
      made to the parent so far. */
  class ReminderView {
    var notes: seq<Note>
    var activeFilter: ViewFilter
    var reminders: seq<Reminder>
    var reminderStates: map<string, ReminderState>
    var globalNotifications: bool
    var calls: seq<Call>

    constructor(notes: seq<Note>)
      ensures this.notes == notes && activeFilter == TodayTab && reminders == []
      ensures reminderStates == map[] && globalNotifications && calls == []
    {
      this.notes := notes;
      activeFilter := TodayTab;
      reminders := [];
      reminderStates := map[];
      globalNotifications := true;
      calls := [];
    }

    /** The extraction effect, run with the clock reading `now`. */
    method Refresh(now: int)
      modifies this
      ensures reminders == Extracted(notes, reminderStates, now)
      ensures notes == old(notes) && activeFilter == old(activeFilter) && reminderStates == old(reminderStates)
      ensures globalNotifications == old(globalNotifications) && calls == old(calls)
    {
      reminders := ExtractReminders(notes, reminderStates, now);
    }

    /** `filteredReminders`. */
    function FilteredReminders(now: int): seq<Reminder>
      reads this
    {
      Filtered(reminders, activeFilter, now)
    }

    method MarkCompleted(id: string, completed: bool)
      modifies this
      ensures reminderStates == MarkState(old(reminderStates), id, completed)
      ensures calls == old(calls) + [CompletedCall(id, completed)]
      ensures notes == old(notes) && activeFilter == old(activeFilter) && reminders == old(reminders)
      ensures globalNotifications == old(globalNotifications)
    {
      reminderStates := reminderStates[id := ReminderState(completed, EnabledIn(reminderStates, id))];
      calls := calls + [CompletedCall(id, completed)];
    }

    method ToggleReminder(id: string, enabled: bool)
      modifies this
      ensures reminderStates == ToggleState(old(reminderStates), id, enabled)
      ensures calls == old(calls) + [ToggleCall(id, enabled)]
      ensures notes == old(notes) && activeFilter == old(activeFilter) && reminders == old(reminders)
      ensures globalNotifications == old(globalNotifications)
    {
      reminderStates := reminderStates[id := ReminderState(CompletedIn(reminderStates, id), enabled)];
      calls := calls + [ToggleCall(id, enabled)];
    }

    /** `handleGlobalNotificationsToggle`. */
    method ToggleGlobal(enabled: bool)
      modifies this
      ensures globalNotifications == enabled
      ensures reminderStates == old(reminderStates) + GlobalStates(old(reminders), old(reminderStates), enabled)
      ensures calls == old(calls) + ToggleCalls(old(reminders), enabled)
      ensures notes == old(notes) && activeFilter == old(activeFilter) && reminders == old(reminders)
    {
      var newStates, newCalls := SwitchAll(reminders, reminderStates, enabled);
      globalNotifications := enabled;
      reminderStates := reminderStates + newStates;
      calls := calls + newCalls;
    }
  }
}
