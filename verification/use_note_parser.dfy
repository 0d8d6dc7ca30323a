/** The `useNoteParser` hook: the same tag and time patterns as the note
    parser, with three differences — every tag match is kept (no
    de-duplication), a reminder must end with a dot, and only `오늘`,
    `내일` and `모레` are day words.  Its hour rule differs as well: an hour
    written without 오전/오후 moves to the afternoon unless it is written
    with a leading zero (`08시`). */
module UseNoteParser {
  import opened Common
  import opened NoteParser

  const HookDayWords: seq<string> := ["오늘", "내일", "모레"]

  /** `hourStr.startsWith('0') && hourStr.length === 2`. */
  predicate ZeroPadded(hour: string) {
    |hour| == 2 && hour[0] == '0'
  }

  /** The hour rule as the hook writes it: 오후 and an unpadded bare hour
      add 12 to every hour except 12, so `15시` becomes hour 27. */
  function ClockHourAsWritten(c: Clock): (r: int)
    requires ValidClock(c)
    ensures r % 12 == HourText(c) % 12
    ensures r == HourText(c) + 12 <==>
              HourText(c) != 12 && (c.meridiem == Pm || (c.meridiem == NoMeridiem && !ZeroPadded(c.hour)))
    ensures c.meridiem == Am && HourText(c) == 12 ==> r == 0
    ensures r == HourText(c) || r == HourText(c) + 12 || (c.meridiem == Am && HourText(c) == 12 && r == 0)
    ensures HourText(c) <= 23 ==> 0 <= r <= 35
  {
    var h := HourText(c);
    match c.meridiem
    case Am => if h == 12 then 0 else h
    case Pm => if h != 12 then h + 12 else h
    case NoMeridiem => if !ZeroPadded(c.hour) && h != 12 then h + 12 else h
  }

  /** Under the rule as written, `15시` is 3 o'clock the next morning, and
      the hook's `@15시` resolves to exactly that time. */
  lemma FifteenIsThreeAm(now: int)
    ensures ClockHourAsWritten(Clock(NoMeridiem, "15", None)) == 27
    ensures AdjustPast(StartOfDay(now) + 27 * Hour, now) == StartOfDay(now) + Day + 3 * Hour
    ensures DayOf(StartOfDay(now) + Day + 3 * Hour) == DayOf(now) + 1
    ensures Eval(AtClock(Clock(NoMeridiem, "15", None)), now) == StartOfDay(now) + Day + 3 * Hour
  {
    assert DigitsValue("15") == 15 by { assert "15"[..1] == "1"; }
    assert !ZeroPadded("15");
    DayOfShift(DayOf(now) + 1, 3 * Hour);
  }

  /** The hour rule with the guard the comments describe and the note
      parser uses: only hours below 12 move to the afternoon, so every
      written hour up to 23 stays a time of the same day. */
  function ClockHour(c: Clock): (r: int)
    requires ValidClock(c)
    ensures r % 12 == HourText(c) % 12
    ensures HourText(c) <= 23 ==> 0 <= r <= 23
    ensures HourText(c) <= 12 ==> r == ClockHourAsWritten(c)
    ensures c.meridiem == NoMeridiem && ZeroPadded(c.hour) ==> r == HourText(c)
    ensures c.meridiem != Am && !ZeroPadded(c.hour) && HourText(c) < 12 ==> 12 <= r
    ensures c.meridiem == Am && HourText(c) <= 12 ==> r < 12
  {
    var h := HourText(c);
    match c.meridiem
    case Am => if h == 12 then 0 else h
    case Pm => if h < 12 then h + 12 else h
    case NoMeridiem => if !ZeroPadded(c.hour) && h < 12 then h + 12 else h
  }

  /** Days after today named by the hook's day words. */
  function HookDayOffset(w: string): (r: nat)
    ensures r <= 2
    ensures w == "내일" ==> r == 1
    ensures w == "모레" ==> r == 2
    ensures w != "내일" && w != "모레" ==> r == 0
  {
    if w == "내일" then 1 else if w == "모레" then 2 else 0
  }

  /** The hook's `parseTimeExpression(timeText)` with the clock read as
      `now`, for a given hour rule. */
  function EvalWith(e: TimeExpr, now: int, hourOf: Clock --> int): (r: int)
    requires ValidExpr(e)
    requires forall c :: ValidClock(c) ==> hourOf.requires(c)
  {
    match e
    case Relative(a, hours) =>
      now + DigitsValue(a) * (if hours then Hour else Minute)
    case OnDate(y, m, d, c) =>
      LocalTime(DigitsValue(y), DigitsValue(m) - 1, DigitsValue(d), DateHour(c),
                if c.Some? then ClockMinute(c.value) else 0)
    case OnDayWord(w, c) =>
      var hour := if c.Some? then hourOf(c.value) else 9;
      var minute := if c.Some? then ClockMinute(c.value) else 0;
      var t := StartOfDay(now) + HookDayOffset(w) * Day + hour * Hour + minute * Minute;
      if w == "오늘" then AdjustPast(t, now) else t
    case AtClock(c) =>
      AdjustPast(StartOfDay(now) + hourOf(c) * Hour + ClockMinute(c) * Minute, now)
    case OnMonthDay(m, d) =>
      LocalTime(YearOf(DayOf(now)), DigitsValue(m) - 1, DigitsValue(d), 9, 0)
  }

  /** The hook's `parseTimeExpression` as written, with its hour rule
      `ClockHourAsWritten`. */
  function Eval(e: TimeExpr, now: int): (r: int)
    requires ValidExpr(e)
    ensures e.AtClock? && HourText(e.time) <= 23 && ClockMinute(e.time) <= 59 ==>
              now < r < StartOfDay(now) + 2 * Day
    ensures e.OnDayWord? && e.word == "오늘" && (e.clock.Some? ==> HourText(e.clock.value) <= 23 && ClockMinute(e.clock.value) <= 59) ==>
              now < r < StartOfDay(now) + 2 * Day
  {
    var r := EvalWith(e, now, ClockHourAsWritten);
    if e.AtClock? && HourText(e.time) <= 23 && ClockMinute(e.time) <= 59 then
      AdjustPastWithin(ClockHourAsWritten(e.time), ClockMinute(e.time), now); r
    else if e.OnDayWord? && e.word == "오늘" && (e.clock.Some? ==> HourText(e.clock.value) <= 23 && ClockMinute(e.clock.value) <= 59) then
      var hour := if e.clock.Some? then ClockHourAsWritten(e.clock.value) else 9;
      var minute := if e.clock.Some? then ClockMinute(e.clock.value) else 0;
      AdjustPastWithin(hour, minute, now); r
    else r
  }

  /** The same function with the corrected hour rule `ClockHour`. */
  function IntendedEval(e: TimeExpr, now: int): (r: int)
    requires ValidExpr(e)
    ensures e.AtClock? && HourText(e.time) <= 23 && ClockMinute(e.time) <= 59 ==>
              now < r < StartOfDay(now) + 2 * Day
  {
    var r := EvalWith(e, now, ClockHour);
    if e.AtClock? && HourText(e.time) <= 23 && ClockMinute(e.time) <= 59 then
      AdjustPastWithin(ClockHour(e.time), ClockMinute(e.time), now); r
    else r
  }

  /** A clock time of the day, up to 35:59, moved past `now`: after `now`
      and before the end of the next day. */
  lemma AdjustPastWithin(hour: int, minute: int, now: int)
    requires 0 <= hour <= 35 && 0 <= minute <= 59
    ensures now < AdjustPast(StartOfDay(now) + hour * Hour + minute * Minute, now) < StartOfDay(now) + 2 * Day
  {
    AdjustPastAhead(hour, minute, now);
    assert hour * Hour <= 35 * Hour;
    assert minute * Minute <= 59 * Minute;
  }

  /** The clock of a time expression, if it has one. */
  function ClockOf(e: TimeExpr): Option<Clock> {
    match e
    case OnDate(_, _, _, c) => c
    case OnDayWord(_, c) => c
    case AtClock(c) => Some(c)
    case _ => None
  }

  /** The hook as written and the corrected hook agree on every expression
      whose written hour is at most 12 or carries 오전: the +12 rule only
      goes wrong from 13 on. */
  lemma EvalAgreesWithIntended(e: TimeExpr, now: int)
    requires ValidExpr(e)
    requires ClockOf(e).Some? ==> HourText(ClockOf(e).value) <= 12 || ClockOf(e).value.meridiem == Am
    ensures Eval(e, now) == IntendedEval(e, now)
  {
    if ClockOf(e).Some? {
      var c := ClockOf(e).value;
      assert ClockHour(c) == ClockHourAsWritten(c);
    }
  }

  /** Relative times, dates and month-days resolve as in the note parser. */
  lemma EvalAgreesWithNoteParser(e: TimeExpr, now: int)
    requires ValidExpr(e) && (e.Relative? || e.OnDate? || e.OnMonthDay?)
    ensures Eval(e, now) == NoteParser.Eval(e, now)
  {
  }

  /** `내일` and `모레` as written: the day they name, or the day after it
      when the hook's +12 rule carries the hour past midnight (`내일 15시`
      is 03:00 the day after tomorrow). */
  lemma EvalDayWordDay(w: string, c: Option<Clock>, now: int)
    requires w != "오늘"
    requires c.Some? ==> ValidClock(c.value) && HourText(c.value) <= 23 && ClockMinute(c.value) <= 59
    ensures DayOf(Eval(OnDayWord(w, c), now)) ==
              DayOf(now) + HookDayOffset(w) + (if c.Some? && ClockHourAsWritten(c.value) >= 24 then 1 else 0)
  {
    var hour := if c.Some? then ClockHourAsWritten(c.value) else 9;
    var minute := if c.Some? then ClockMinute(c.value) else 0;
    DayStartShift(now, HookDayOffset(w));
    if hour >= 24 {
      TimeOfDayBound(hour - 24, minute);
      assert hour * Hour + minute * Minute == Day + ((hour - 24) * Hour + minute * Minute);
      DayOfShift(DayOf(now) + HookDayOffset(w) + 1, (hour - 24) * Hour + minute * Minute);
    } else {
      TimeOfDayBound(hour, minute);
      DayOfShift(DayOf(now) + HookDayOffset(w), hour * Hour + minute * Minute);
    }
  }

  /** With the corrected hour rule `내일` and `모레` always name their own
      day. */
  lemma IntendedEvalDayWordDay(w: string, c: Option<Clock>, now: int)
    requires w != "오늘"
    requires c.Some? ==> ValidClock(c.value) && HourText(c.value) <= 23 && ClockMinute(c.value) <= 59
    ensures DayOf(IntendedEval(OnDayWord(w, c), now)) == DayOf(now) + HookDayOffset(w)
  {
    var hour := if c.Some? then ClockHour(c.value) else 9;
    var minute := if c.Some? then ClockMinute(c.value) else 0;
    TimeOfDayBound(hour, minute);
    DayStartShift(now, HookDayOffset(w));
    DayOfShift(DayOf(now) + HookDayOffset(w), hour * Hour + minute * Minute);
  }

  /* ---------------------------------------------------------------------
     The hook body
     --------------------------------------------------------------------- */

  /** `{ text: match[1], originalText: match[0] }` for every tag match from
      position `i` on. */
  function TagMatches(s: string, i: nat): seq<ParsedTag>
    requires i <= |s|
    decreases |s| - i
  {
    match NextTag(s, i)
    case None => []
    case Some(m) => [ParsedTag(TagText(s, m), s[m.at..m.end])] + TagMatches(s, m.end)
  }

  /** The hook keeps every tag match, repeats included, in text order: the
      texts are the note parser's matches before de-duplication, each
      written `#text`. */
  lemma {:induction false} TagMatchesFacts(s: string, i: nat)
    requires i <= |s|
    ensures |TagMatches(s, i)| == |TagTexts(s, i)|
    ensures forall k :: 0 <= k < |TagMatches(s, i)| ==>
              TagMatches(s, i)[k].text == TagTexts(s, i)[k]
              && TagMatches(s, i)[k].originalText == "#" + TagTexts(s, i)[k]
    decreases |s| - i
  {
    match NextTag(s, i)
    case None =>
    case Some(m) =>
      TagMatchesFacts(s, m.end);
      var head := ParsedTag(TagText(s, m), s[m.at..m.end]);
      assert TagMatches(s, i) == [head] + TagMatches(s, m.end);
      assert TagTexts(s, i) == [TagText(s, m)] + TagTexts(s, m.end);
      TagOriginal(s, m);
  }

  /** A tag match reads `#` followed by its captured text. */
  lemma TagOriginal(s: string, m: Span)
    requires m.at + 1 <= m.end <= |s| && TagStart(s, m.at)
    ensures s[m.at..m.end] == "#" + TagText(s, m)
  {
  }

  datatype HookReminder = HookReminder(text: string, originalText: string, parsedDate: int, reminderText: string)

  /** The body of the hook's reminder loop for one match. */
  function ToReminder(m: RawMatch, now: int): (r: Option<HookReminder>)
    ensures r.Some? ==> r.value.text != [] && r.value.reminderText != [] && r.value.originalText == m.whole
  {
    var fullText := Trim(m.capture);
    match MatchTime(fullText, HookDayWords)
    case None => None
    case Some(p) =>
      var timeText := Trim(fullText[..p.end]);
      var reminderText := Trim(fullText[p.end..]);
      if timeText == [] || reminderText == [] then None
      else Some(HookReminder(timeText, m.whole, Eval(p.got, now), reminderText))
  }

  /** `ToReminder` with the clock fixed, as the per-match step. */
  function HookStep(now: int): RawMatch -> Option<HookReminder> {
    m => ToReminder(m, now)
  }

  function Kept(ms: seq<RawMatch>, now: int): (r: seq<HookReminder>)
    ensures |r| <= |ms|
  {
    FilterMap(ms, HookStep(now))
  }

  lemma KeptSnoc(ms: seq<RawMatch>, m: RawMatch, now: int)
    ensures Kept(ms + [m], now) == Kept(ms, now) + AsSeq(ToReminder(m, now))
  {
    FilterMapSnoc(ms, m, HookStep(now));
  }

  /** Every kept reminder has a time text and a reminder text, and its
      original text is one of the matches. */
  lemma KeptFacts(ms: seq<RawMatch>, now: int)
    ensures forall r :: r in Kept(ms, now) ==>
              r.text != [] && r.reminderText != [] && exists j :: 0 <= j < |ms| && r.originalText == ms[j].whole
  {
    FilterMapFrom(ms, HookStep(now));
    forall r | r in Kept(ms, now)
      ensures r.text != [] && r.reminderText != [] && exists j :: 0 <= j < |ms| && r.originalText == ms[j].whole
    {
      var k :| 0 <= k < |Kept(ms, now)| && Kept(ms, now)[k] == r;
      var j :| 0 <= j < |ms| && HookStep(now)(ms[j]) == Some(r);
      assert ToReminder(ms[j], now) == Some(r);
    }
  }

  /** Every reminder match of the hook runs from an `@` to a dot. */
  lemma {:induction false} DotMatchesFacts(s: string, i: nat)
    requires i <= |s|
    ensures forall m :: m in ReminderMatches(s, i, true) ==>
              |m.whole| >= 3 && m.whole[0] == '@' && m.whole[|m.whole| - 1] == '.'
              && m.whole == "@" + m.capture + "."
    decreases |s| - i
  {
    match NextReminder(s, i, true)
    case None =>
    case Some(h) =>
      DotMatchesFacts(s, h.end);
      assert h.stop < |s| && s[h.stop] == '.';
      assert s[h.at..h.end] == "@" + s[h.at + 1..h.stop] + ".";
  }

  /** `useNoteParser(content)`: both loops, with `now` for `new Date()`. */
  method UseNoteParser(content: string, now: int) returns (tags: seq<ParsedTag>, reminders: seq<HookReminder>)
    ensures tags == TagMatches(content, 0)
    ensures reminders == Kept(ReminderMatches(content, 0, true), now)
  {
    tags := CollectTags(content);
    reminders := ParseDotReminders(content, now);
  }

  /** One pass of the tag loop: the next match moves from the part still
      ahead to the tags already pushed. */
  lemma TagLoopStep(s: string, i: nat, tags: seq<ParsedTag>)
    requires i <= |s| && NextTag(s, i).Some?
    requires TagMatches(s, 0) == tags + TagMatches(s, i)
    ensures var m := NextTag(s, i).value;
            TagMatches(s, 0) == (tags + [ParsedTag(TagText(s, m), s[m.at..m.end])]) + TagMatches(s, m.end)
  {
    var m := NextTag(s, i).value;
    assert TagMatches(s, i) == [ParsedTag(TagText(s, m), s[m.at..m.end])] + TagMatches(s, m.end);
    ShiftHead(TagMatches(s, 0), tags, ParsedTag(TagText(s, m), s[m.at..m.end]), TagMatches(s, m.end));
  }

  /** The hook's tag loop: every match is pushed. */
  method CollectTags(content: string) returns (tags: seq<ParsedTag>)
    ensures tags == TagMatches(content, 0)
  {
    var lastIndex := 0;
    tags := [];
    var next := NextTag(content, lastIndex);
    while next.Some?
      invariant lastIndex <= |content|
      invariant next == NextTag(content, lastIndex)
      invariant TagMatches(content, 0) == tags + TagMatches(content, lastIndex)
      decreases |content| - lastIndex
    {
      var m := next.value;
      TagLoopStep(content, lastIndex, tags);
      tags := tags + [ParsedTag(TagText(content, m), content[m.at..m.end])];
      lastIndex := m.end;
      next := NextTag(content, lastIndex);
    }
    assert tags + [] == tags;
  }

  /** `while ((match = reminderRegex.exec(content)) !== null)` with the
      dot-terminated pattern. */
  method ParseDotReminders(content: string, now: int) returns (reminders: seq<HookReminder>)
    ensures reminders == Kept(ReminderMatches(content, 0, true), now)
  {
    var lastIndex := 0;
    reminders := [];
    ghost var seen: seq<RawMatch> := [];
    var hit := NextReminder(content, lastIndex, true);
    while hit.Some?
      invariant lastIndex <= |content|
      invariant hit == NextReminder(content, lastIndex, true)
      invariant ReminderMatches(content, 0, true) == seen + ReminderMatches(content, lastIndex, true)
      invariant reminders == Kept(seen, now)
      decreases |content| - lastIndex
    {
      var m := RawOf(content, hit.value);
      ReminderLoopStep(content, lastIndex, seen, true);
      KeptSnoc(seen, m, now);
      var r := ToReminder(m, now);
      if r.Some? {
        reminders := reminders + [r.value];
      }
      seen := seen + [m];
      lastIndex := hit.value.end;
      hit := NextReminder(content, lastIndex, true);
    }
    assert seen + [] == seen;
  }
}
