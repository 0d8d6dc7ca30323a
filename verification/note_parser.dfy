/** The note parser (`parseNoteContent`): the `#tags` of a note, in
    first-occurrence order without repeats, and its `@time text.`
    reminders, each split into a leading time expression and the text
    after it, with the time resolved against a base date.

    The regular expressions are written out as greedy prefix matchers on
    positions of the string.  A time expression is kept as the structure
    its pattern captured (`TimeExpr`), and `Eval` resolves that structure
    the way `parseTimeExpression` resolves the matched text. */
module NoteParser {
  import opened Common

  /* ---------------------------------------------------------------------
     Regular-expression building blocks
     --------------------------------------------------------------------- */

  /** `\s*` at position `i`: the end of the white-space run. */
  function SkipSpaces(s: string, i: nat): (j: nat)
    requires i <= |s|
    ensures i <= j <= |s|
    ensures forall k :: i <= k < j ==> IsSpace(s[k])
    ensures j == |s| || !IsSpace(s[j])
    decreases |s| - i
  {
    if i < |s| && IsSpace(s[i]) then SkipSpaces(s, i + 1) else i
  }

  /** `\d{0,max}` at position `i`, greedy. */
  function SkipDigits(s: string, i: nat, max: nat): (j: nat)
    requires i <= |s|
    ensures i <= j <= |s| && j <= i + max
    ensures forall k :: i <= k < j ==> IsDigit(s[k])
    ensures DigitString(s[i..j])
    ensures j < i + max ==> j == |s| || !IsDigit(s[j])
    decreases max
  {
    if max > 0 && i < |s| && IsDigit(s[i]) then SkipDigits(s, i + 1, max - 1) else i
  }

  /** `\d*` at position `i`. */
  function SkipAllDigits(s: string, i: nat): (j: nat)
    requires i <= |s|
    ensures i <= j <= |s|
    ensures forall k :: i <= k < j ==> IsDigit(s[k])
    ensures DigitString(s[i..j])
    ensures j == |s| || !IsDigit(s[j])
    decreases |s| - i
  {
    if i < |s| && IsDigit(s[i]) then SkipAllDigits(s, i + 1) else i
  }

  /** The literal `w` occurs at position `i`. */
  predicate LitAt(s: string, i: nat, w: string) {
    i + |w| <= |s| && s[i..i + |w|] == w
  }

  /* ---------------------------------------------------------------------
     Time expressions
     --------------------------------------------------------------------- */

  /** `(오전|오후)?`: morning, afternoon or not given. */
  datatype Meridiem = NoMeridiem | Am | Pm

  /** `(오전|오후)? (\d{1,2})시 ((\d{1,2})분)?`, with the digit groups as
      they were written. */
  datatype Clock = Clock(meridiem: Meridiem, hour: string, minute: Option<string>)

  /** The structure one of the six time patterns captured. */
  datatype TimeExpr =
    | Relative(amount: string, hours: bool)                               // `2시간`, `30분`
    | OnDate(year: string, month: string, day: string, clock: Option<Clock>) // `2025-12-25 3시`
    | OnDayWord(word: string, clock: Option<Clock>)                        // `내일 오후 3시`
    | AtClock(time: Clock)                                                 // `오후 3시 30분`, `3시`
    | OnMonthDay(month: string, day: string)                               // `12-25`

  predicate ValidClock(c: Clock) {
    1 <= |c.hour| <= 2 && DigitString(c.hour)
    && (c.minute.Some? ==> 1 <= |c.minute.value| <= 2 && DigitString(c.minute.value))
  }

  predicate ValidExpr(e: TimeExpr) {
    match e
    case Relative(a, _) => a != [] && DigitString(a)
    case OnDate(y, m, d, c) =>
      |y| == 4 && DigitString(y) && 1 <= |m| <= 2 && DigitString(m)
      && 1 <= |d| <= 2 && DigitString(d) && (c.Some? ==> ValidClock(c.value))
    case OnDayWord(_, c) => c.Some? ==> ValidClock(c.value)
    case AtClock(c) => ValidClock(c)
    case OnMonthDay(m, d) => 1 <= |m| <= 2 && DigitString(m) && 1 <= |d| <= 2 && DigitString(d)
  }

  /** What a matcher captured and where its match ends. */
  datatype Scan<T> = Scan(got: T, end: nat)

  /** `(오전|오후)?` at position `i`. */
  function MatchMeridiem(s: string, i: nat): (r: Scan<Meridiem>)
    requires i <= |s|
    ensures i <= r.end <= |s|
    ensures r.got == NoMeridiem <==> r.end == i
  {
    if LitAt(s, i, "오전") then Scan(Am, i + 2)
    else if LitAt(s, i, "오후") then Scan(Pm, i + 2)
    else Scan(NoMeridiem, i)
  }

  /** `\d{1,2}\s*시(?:\s*\d{1,2}\s*분)?` at position `i`, after the
      meridiem `m`. */
  function MatchHour(s: string, i: nat, m: Meridiem): (r: Option<Scan<Clock>>)
    requires i <= |s|
    ensures r.Some? ==> i < r.value.end <= |s| && ValidClock(r.value.got) && r.value.got.meridiem == m
  {
    var h := SkipDigits(s, i, 2);
    if h == i then None
    else
      var a := SkipSpaces(s, h);
      if !LitAt(s, a, "시") then None
      else
        var b := SkipSpaces(s, a + 1);
        var c := SkipDigits(s, b, 2);
        var e := SkipSpaces(s, c);
        if c > b && LitAt(s, e, "분") then Some(Scan(Clock(m, s[i..h], Some(s[b..c])), e + 1))
        else Some(Scan(Clock(m, s[i..h], None), a + 1))
  }

  /** `(?:\s*(오전|오후)?\s*\d{1,2}\s*시(?:\s*\d{1,2}\s*분)?)?`: the optional
      clock after a date or a day word. */
  function OptionalClock(s: string, i: nat): (r: Scan<Option<Clock>>)
    requires i <= |s|
    ensures i <= r.end <= |s|
    ensures r.got.Some? ==> ValidClock(r.got.value)
    ensures r.got.None? ==> r.end == i
  {
    var m := MatchMeridiem(s, SkipSpaces(s, i));
    match MatchHour(s, SkipSpaces(s, m.end), m.got)
    case Some(c) => Scan(Some(c.got), c.end)
    case None => Scan(None, i)
  }

  /** `^\d{4}-\d{1,2}-\d{1,2}` and an optional clock. */
  function MatchDate(t: string): (r: Option<Scan<TimeExpr>>)
    ensures r.Some? ==> 0 < r.value.end <= |t| && ValidExpr(r.value.got) && r.value.got.OnDate?
  {
    var y := SkipDigits(t, 0, 4);
    if y != 4 || !LitAt(t, 4, "-") then None
    else
      var mo := SkipDigits(t, 5, 2);
      if mo == 5 || !LitAt(t, mo, "-") then None
      else
        var d := SkipDigits(t, mo + 1, 2);
        if d == mo + 1 then None
        else
          var c := OptionalClock(t, d);
          Some(Scan(OnDate(t[..4], t[5..mo], t[mo + 1..d], c.got), c.end))
  }

  /** The first word of `words` that `t` starts with. */
  function FirstWord(t: string, words: seq<string>): (r: Option<string>)
    ensures r.Some? ==> r.value in words && r.value != [] && StartsWith(t, r.value)
  {
    if words == [] then None
    else if words[0] != [] && StartsWith(t, words[0]) then Some(words[0])
    else FirstWord(t, words[1..])
  }

  /** `^(?:오늘|내일|...)` and an optional clock. */
  function MatchDayWord(t: string, words: seq<string>): (r: Option<Scan<TimeExpr>>)
    ensures r.Some? ==> 0 < r.value.end <= |t| && ValidExpr(r.value.got)
    ensures r.Some? ==> r.value.got.OnDayWord? && r.value.got.word in words
  {
    match FirstWord(t, words)
    case None => None
    case Some(w) =>
      var c := OptionalClock(t, |w|);
      Some(Scan(OnDayWord(w, c.got), c.end))
  }

  /** `^(?:오전|오후)\s*\d{1,2}\s*시(?:\s*\d{1,2}\s*분)?`. */
  function MatchMeridiemClock(t: string): (r: Option<Scan<TimeExpr>>)
    ensures r.Some? ==> 0 < r.value.end <= |t| && ValidExpr(r.value.got)
    ensures r.Some? ==> r.value.got.AtClock? && r.value.got.time.meridiem != NoMeridiem
  {
    var m := MatchMeridiem(t, 0);
    if m.got == NoMeridiem then None
    else
      match MatchHour(t, SkipSpaces(t, m.end), m.got)
      case Some(c) => Some(Scan(AtClock(c.got), c.end))
      case None => None
  }

  /** `^\d+\s*(?:시간|분)`. */
  function MatchRelative(t: string): (r: Option<Scan<TimeExpr>>)
    ensures r.Some? ==> 0 < r.value.end <= |t| && ValidExpr(r.value.got) && r.value.got.Relative?
  {
    var d := SkipAllDigits(t, 0);
    if d == 0 then None
    else
      var a := SkipSpaces(t, d);
      if LitAt(t, a, "시간") then Some(Scan(Relative(t[..d], true), a + 2))
      else if LitAt(t, a, "분") then Some(Scan(Relative(t[..d], false), a + 1))
      else None
  }

  /** `^\d{1,2}\s*시(?:\s*\d{1,2}\s*분)?`. */
  function MatchBareClock(t: string): (r: Option<Scan<TimeExpr>>)
    ensures r.Some? ==> 0 < r.value.end <= |t| && ValidExpr(r.value.got)
    ensures r.Some? ==> r.value.got.AtClock? && r.value.got.time.meridiem == NoMeridiem
  {
    match MatchHour(t, 0, NoMeridiem)
    case Some(c) => Some(Scan(AtClock(c.got), c.end))
    case None => None
  }

  /** `^\d{1,2}-\d{1,2}`. */
  function MatchMonthDay(t: string): (r: Option<Scan<TimeExpr>>)
    ensures r.Some? ==> 0 < r.value.end <= |t| && ValidExpr(r.value.got) && r.value.got.OnMonthDay?
  {
    var mo := SkipDigits(t, 0, 2);
    if mo == 0 || !LitAt(t, mo, "-") then None
    else
      var d := SkipDigits(t, mo + 1, 2);
      if d == mo + 1 then None
      else Some(Scan(OnMonthDay(t[..mo], t[mo + 1..d]), d))
  }

  /** The day words of the note parser's second time pattern. */
  const NoteDayWords: seq<string> := ["오늘", "내일", "명일", "모레", "글피"]

  /** The six `timePatterns`, tried in order: the first that matches a
      prefix of `t` gives the expression and the prefix length. */
  function MatchTime(t: string, words: seq<string>): (r: Option<Scan<TimeExpr>>)
    ensures r.Some? ==> 0 < r.value.end <= |t| && ValidExpr(r.value.got)
    ensures r.None? ==> MatchDate(t).None? && MatchDayWord(t, words).None?
                        && MatchMeridiemClock(t).None? && MatchRelative(t).None?
                        && MatchBareClock(t).None? && MatchMonthDay(t).None?
  {
    if MatchDate(t).Some? then MatchDate(t)
    else if MatchDayWord(t, words).Some? then MatchDayWord(t, words)
    else if MatchMeridiemClock(t).Some? then MatchMeridiemClock(t)
    else if MatchRelative(t).Some? then MatchRelative(t)
    else if MatchBareClock(t).Some? then MatchBareClock(t)
    else MatchMonthDay(t)
  }

  /* ---------------------------------------------------------------------
     parseTimeExpression
     --------------------------------------------------------------------- */

  /** The minutes of a clock, 0 when not given. */
  function ClockMinute(c: Clock): (r: nat)
    requires ValidClock(c)
    ensures r <= 99
    ensures c.minute.None? ==> r == 0
  {
    match c.minute
    case None => 0
    case Some(m) => DigitsValue(m)
  }

  function HourText(c: Clock): (r: nat)
    requires ValidClock(c)
    ensures r <= 99
  {
    DigitsValue(c.hour)
  }

  /** The hour after a date: 오전 12시 is midnight, 오후 adds 12 except to
      12, and an hour without 오전/오후 is taken as written. */
  function DateHour(c: Option<Clock>): (r: int)
    requires c.Some? ==> ValidClock(c.value)
    ensures c.None? ==> r == 9
    ensures c.Some? ==> r % 12 == HourText(c.value) % 12
    ensures c.Some? && c.value.meridiem == NoMeridiem ==> r == HourText(c.value)
    ensures c.Some? && HourText(c.value) <= 12 ==>
              (c.value.meridiem == Am ==> 0 <= r < 12) && (c.value.meridiem == Pm ==> 12 <= r < 24)
  {
    match c
    case None => 9
    case Some(k) =>
      var h := HourText(k);
      if k.meridiem == Am && h == 12 then 0
      else if k.meridiem == Pm && h != 12 then h + 12
      else h
  }

  /** The hour after a day word or on its own: 오전 12시 is midnight, and
      an hour below 12 moves to the afternoon unless 오전 is given. */
  function ClockHour(c: Clock): (r: int)
    requires ValidClock(c)
    ensures r % 12 == HourText(c) % 12
    ensures HourText(c) <= 23 ==> 0 <= r <= 23
    ensures c.meridiem != Am && HourText(c) < 12 ==> 12 <= r
    ensures c.meridiem == Am && HourText(c) <= 12 ==> r < 12
    ensures HourText(c) >= 12 && !(c.meridiem == Am && HourText(c) == 12) ==> r == HourText(c)
  {
    var h := HourText(c);
    match c.meridiem
    case Am => if h == 12 then 0 else h
    case Pm => if h < 12 then h + 12 else h
    case NoMeridiem => if h < 12 then h + 12 else h
  }

  /** Days after today named by a day word. */
  function DayOffset(w: string): (r: nat)
    ensures r <= 3
    ensures w == "내일" || w == "명일" ==> r == 1
    ensures w == "모레" ==> r == 2
    ensures w == "글피" ==> r == 3
  {
    if w == "내일" || w == "명일" then 1
    else if w == "모레" then 2
    else if w == "글피" then 3
    else 0
  }

  predicate IsTodayWord(w: string) {
    w == "오늘" || w == "금일"
  }

  /** `adjustForPastTime`: a time not after `now` moves one day on. */
  function AdjustPast(t: int, now: int): (r: int)
    ensures t > now ==> r == t
    ensures t <= now ==> r == t + Day
  {
    if t <= now then t + Day else t
  }

  /** `parseTimeExpression(timeText, baseDate)` on the captured structure;
      `now` is the base date. */
  function Eval(e: TimeExpr, now: int): (r: int)
    requires ValidExpr(e)
  {
    match e
    case Relative(a, hours) =>
      now + DigitsValue(a) * (if hours then Hour else Minute)
    case OnDate(y, m, d, c) =>
      LocalTime(DigitsValue(y), DigitsValue(m) - 1, DigitsValue(d), DateHour(c),
                if c.Some? then ClockMinute(c.value) else 0)
    case OnDayWord(w, c) =>
      var hour := if c.Some? then ClockHour(c.value) else 9;
      var minute := if c.Some? then ClockMinute(c.value) else 0;
      var t := StartOfDay(now) + DayOffset(w) * Day + hour * Hour + minute * Minute;
      if IsTodayWord(w) then AdjustPast(t, now) else t
    case AtClock(c) =>
      AdjustPast(StartOfDay(now) + ClockHour(c) * Hour + ClockMinute(c) * Minute, now)
    case OnMonthDay(m, d) =>
      LocalTime(YearOf(DayOf(now)), DigitsValue(m) - 1, DigitsValue(d), 9, 0)
  }

  /** A relative time is that many hours or minutes after the base date. */
  lemma EvalRelative(a: string, hours: bool, now: int)
    requires a != [] && DigitString(a)
    ensures Eval(Relative(a, hours), now) - now == DigitsValue(a) * (if hours then Hour else Minute)
    ensures Eval(Relative(a, hours), now) >= now
  {
  }

  /** A time of day moved past `now`: never at or before `now`, and
      within the next day when the clock time is a real one. */
  lemma {:induction false} AdjustPastAhead(hour: int, minute: int, now: int)
    requires 0 <= hour && 0 <= minute
    ensures AdjustPast(StartOfDay(now) + hour * Hour + minute * Minute, now) > now
    ensures hour <= 23 && minute <= 59 ==>
              AdjustPast(StartOfDay(now) + hour * Hour + minute * Minute, now) < StartOfDay(now) + 2 * Day
  {
    var start := StartOfDay(now);
    var offset := hour * Hour + minute * Minute;
    assert 0 <= offset;
    assert hour <= 23 && minute <= 59 ==> offset < Day;
    assert start <= now < start + Day;
  }

  /** A bare clock time and a time "today" always lie after the base date
      and, for a real clock time, before the end of the next day. */
  lemma EvalTodayIsAhead(e: TimeExpr, now: int)
    requires ValidExpr(e)
    requires e.AtClock? || (e.OnDayWord? && IsTodayWord(e.word))
    ensures Eval(e, now) > now
    ensures (e.AtClock? ==> HourText(e.time) <= 23 && ClockMinute(e.time) <= 59) &&
            (e.OnDayWord? && e.clock.Some? ==> HourText(e.clock.value) <= 23 && ClockMinute(e.clock.value) <= 59)
            ==> Eval(e, now) < StartOfDay(now) + 2 * Day
  {
    if e.AtClock? {
      AdjustPastAhead(ClockHour(e.time), ClockMinute(e.time), now);
    } else {
      var hour := if e.clock.Some? then ClockHour(e.clock.value) else 9;
      var minute := if e.clock.Some? then ClockMinute(e.clock.value) else 0;
      assert DayOffset(e.word) == 0;
      AdjustPastAhead(hour, minute, now);
    }
  }

  /** A day word's time lies on the day it names, counted from the base
      date (before the move past `now` that only "today" gets). */
  lemma EvalDayWordDay(w: string, c: Option<Clock>, now: int)
    requires !IsTodayWord(w)
    requires c.Some? ==> ValidClock(c.value) && HourText(c.value) <= 23 && ClockMinute(c.value) <= 59
    ensures DayOf(Eval(OnDayWord(w, c), now)) == DayOf(now) + DayOffset(w)
  {
    var hour := if c.Some? then ClockHour(c.value) else 9;
    var minute := if c.Some? then ClockMinute(c.value) else 0;
    TimeOfDayBound(hour, minute);
    DayStartShift(now, DayOffset(w));
    DayOfShift(DayOf(now) + DayOffset(w), hour * Hour + minute * Minute);
  }

  lemma DayStartShift(now: int, offset: int)
    ensures StartOfDay(now) + offset * Day == (DayOf(now) + offset) * Day
  {
  }

  lemma TimeOfDayBound(hour: int, minute: int)
    requires 0 <= hour <= 23 && 0 <= minute <= 59
    ensures 0 <= hour * Hour + minute * Minute < Day
  {
    assert hour * Hour <= 23 * Hour;
    assert minute * Minute <= 59 * Minute;
  }

  lemma DayOfShift(d: int, offset: int)
    requires 0 <= offset < Day
    ensures DayOf(d * Day + offset) == d
  {
  }

  /** `내일 10시` is read as the day word `내일` with a bare clock, and
      (`TomorrowTenEval`) a bare hour below 12 is moved to the afternoon:
      22:00 tomorrow. */
  lemma TomorrowTenParse()
    ensures MatchTime("내일 10시 미팅", NoteDayWords)
            == Some(Scan(OnDayWord("내일", Some(Clock(NoMeridiem, "10", None))), 6))
  {
    var t := "내일 10시 미팅";
    assert MatchDate(t) == None by { assert !IsDigit(t[0]); }
    assert FirstWord(t, NoteDayWords) == Some("내일") by {
      assert t[..2] == "내일";
      assert t[..2] != "오늘";
    }
    assert SkipSpaces(t, 2) == 3;
    assert MatchMeridiem(t, 3) == Scan(NoMeridiem, 3) by {
      assert t[3..5] == "10";
    }
    TomorrowTenHour(t);
  }

  /** The clock of `내일 10시 미팅`: the hour `10` and the marker `시`, with
      no minutes after it. */
  lemma TomorrowTenHour(t: string)
    requires t == "내일 10시 미팅"
    ensures MatchHour(t, 3, NoMeridiem) == Some(Scan(Clock(NoMeridiem, "10", None), 6))
  {
    assert SkipDigits(t, 3, 2) == 5;
    assert SkipSpaces(t, 5) == 5;
    assert LitAt(t, 5, "시") by { assert t[5..6] == "시"; }
    assert SkipSpaces(t, 6) == 7;
    assert SkipDigits(t, 7, 2) == 7;
    assert t[3..5] == "10";
  }

  lemma TomorrowTenEval(now: int)
    ensures Eval(OnDayWord("내일", Some(Clock(NoMeridiem, "10", None))), now)
            == StartOfDay(now) + Day + 22 * Hour
  {
    var c := Clock(NoMeridiem, "10", None);
    assert DigitsValue("10") == 10 by { assert "10"[..1] == "1"; }
    assert ClockHour(c) == 22;
    assert ClockMinute(c) == 0;
    assert DayOffset("내일") == 1;
    assert !IsTodayWord("내일");
  }

  /* ---------------------------------------------------------------------
     Tags: `/#([^\s#@]+)/g`
     --------------------------------------------------------------------- */

  predicate IsTagChar(c: char) {
    !IsSpace(c) && c != '#' && c != '@'
  }

  predicate IsTagText(t: string) {
    t != [] && forall k :: 0 <= k < |t| ==> IsTagChar(t[k])
  }

  /** `[^\s#@]*` at position `i`. */
  function TagRun(s: string, i: nat): (j: nat)
    requires i <= |s|
    ensures i <= j <= |s|
    ensures forall k :: i <= k < j ==> IsTagChar(s[k])
    ensures j == |s| || !IsTagChar(s[j])
    decreases |s| - i
  {
    if i < |s| && IsTagChar(s[i]) then TagRun(s, i + 1) else i
  }

  /** A hashtag can start at `k`. */
  predicate TagStart(s: string, k: nat) {
    k + 1 < |s| && s[k] == '#' && IsTagChar(s[k + 1])
  }

  /** A match `s[at..end]`. */
  datatype Span = Span(at: nat, end: nat)

  /** `hashtagRegex.exec` from `lastIndex` `i`: the position of the next
      `#` and the end of the tag after it. */
  function NextTag(s: string, i: nat): (r: Option<Span>)
    requires i <= |s|
    ensures r.Some? ==> i <= r.value.at && r.value.at + 1 < r.value.end <= |s|
    ensures r.Some? ==> TagStart(s, r.value.at) && r.value.end == TagRun(s, r.value.at + 1)
    decreases |s| - i
  {
    if i == |s| then None
    else if TagStart(s, i) then Some(Span(i, TagRun(s, i + 1)))
    else NextTag(s, i + 1)
  }

  /** `exec` finds the leftmost match: no tag starts between `lastIndex`
      and the one found, and none at all when nothing is found. */
  lemma {:induction false} NextTagIsFirst(s: string, i: nat)
    requires i <= |s|
    ensures NextTag(s, i).Some? ==> forall k :: i <= k < NextTag(s, i).value.at ==> !TagStart(s, k)
    ensures NextTag(s, i).None? ==> forall k :: i <= k < |s| ==> !TagStart(s, k)
    decreases |s| - i
  {
    if i < |s| && !TagStart(s, i) {
      NextTagIsFirst(s, i + 1);
    }
  }

  /** `match[1]` of a tag match. */
  function TagText(s: string, m: Span): string
    requires m.at + 1 <= m.end <= |s|
  {
    s[m.at + 1..m.end]
  }

  /** The captured tag texts of every match from position `i` on. */
  function TagTexts(s: string, i: nat): seq<string>
    requires i <= |s|
    decreases |s| - i
  {
    match NextTag(s, i)
    case None => []
    case Some(m) => [TagText(s, m)] + TagTexts(s, m.end)
  }

  /** Every matched tag is a non-empty run of tag characters that occurs
      in the note right after a `#`. */
  lemma {:induction false} TagTextsFacts(s: string, i: nat)
    requires i <= |s|
    ensures forall t :: t in TagTexts(s, i) ==> IsTagText(t) && Contains(s, "#" + t)
    decreases |s| - i
  {
    match NextTag(s, i)
    case None =>
    case Some(m) =>
      TagTextsFacts(s, m.end);
      var t := TagText(s, m);
      assert IsTagText(t) by {
        forall k | 0 <= k < |t| ensures IsTagChar(t[k]) {
          assert t[k] == s[m.at + 1 + k];
        }
      }
      assert s[m.at..m.end] == "#" + t;
      ContainsAt(s, "#" + t, m.at);
      assert TagTexts(s, i) == [t] + TagTexts(s, m.end);
  }

  datatype ParsedTag = ParsedTag(text: string, originalText: string)

  /** `Array.from(uniqueTags).map((text) => ({ text, originalText: '#' + text }))`. */
  function TagsOf(texts: seq<string>): (r: seq<ParsedTag>)
    ensures |r| == |texts|
    ensures forall k :: 0 <= k < |r| ==> r[k].text == texts[k] && r[k].originalText == "#" + texts[k]
  {
    seq(|texts|, k requires 0 <= k < |texts| => ParsedTag(texts[k], "#" + texts[k]))
  }

  /** The tags `parseNoteContent` returns. */
  function Tags(content: string): seq<ParsedTag> {
    TagsOf(Dedupe(TagTexts(content, 0)))
  }

  /** The returned tags are exactly the matched tag texts, each once, in
      order of first occurrence, each written `#text` in the note. */
  lemma TagsFacts(content: string)
    ensures forall t :: (exists k :: 0 <= k < |Tags(content)| && Tags(content)[k].text == t)
                        <==> t in TagTexts(content, 0)
    ensures forall j, k :: 0 <= j < k < |Tags(content)| ==> Tags(content)[j].text != Tags(content)[k].text
    ensures forall k :: 0 <= k < |Tags(content)| ==>
              IsTagText(Tags(content)[k].text) && Tags(content)[k].originalText == "#" + Tags(content)[k].text
              && Contains(content, Tags(content)[k].originalText)
    ensures forall j, k :: 0 <= j < k < |Tags(content)| ==>
              FirstIndex(TagTexts(content, 0), Tags(content)[j].text) < FirstIndex(TagTexts(content, 0), Tags(content)[k].text)
  {
    var texts := Dedupe(TagTexts(content, 0));
    TagTextsFacts(content, 0);
    DedupeFirstOccurrence(TagTexts(content, 0));
    forall t | t in TagTexts(content, 0)
      ensures exists k :: 0 <= k < |Tags(content)| && Tags(content)[k].text == t
    {
      var k :| 0 <= k < |texts| && texts[k] == t;
      assert Tags(content)[k].text == t;
    }
  }

  /** `while ((match = hashtagRegex.exec(content)) !== null) uniqueTags.add(match[1])`,
      then the tag objects. */
  method ParseTags(content: string) returns (tags: seq<ParsedTag>)
    ensures tags == Tags(content)
  {
    var lastIndex := 0;
    var uniqueTags: seq<string> := [];
    ghost var seen: seq<string> := [];
    var next := NextTag(content, lastIndex);
    while next.Some?
      invariant lastIndex <= |content|
      invariant next == NextTag(content, lastIndex)
      invariant TagTexts(content, 0) == seen + TagTexts(content, lastIndex)
      invariant uniqueTags == Dedupe(seen)
      decreases |content| - lastIndex
    {
      var text := TagText(content, next.value);
      TagLoopStep(content, lastIndex, seen);
      DedupeSnoc(seen, text);
      if text !in uniqueTags {
        uniqueTags := uniqueTags + [text];
      }
      seen := seen + [text];
      lastIndex := next.value.end;
      next := NextTag(content, lastIndex);
    }
    assert seen + [] == seen;
    tags := TagsOf(uniqueTags);
  }

  /** One round of the tag loop: the matched text moves from the
      matches still ahead to the ones seen, and the set grows by it
      unless it is already there. */
  lemma TagLoopStep(s: string, i: nat, seen: seq<string>)
    requires i <= |s| && NextTag(s, i).Some?
    requires TagTexts(s, 0) == seen + TagTexts(s, i)
    ensures TagTexts(s, 0) == (seen + [TagText(s, NextTag(s, i).value)]) + TagTexts(s, NextTag(s, i).value.end)
  {
    var m := NextTag(s, i).value;
    assert TagTexts(s, i) == [TagText(s, m)] + TagTexts(s, m.end);
  }

  lemma DedupeSnoc<T(!new)>(s: seq<T>, x: T)
    ensures Dedupe(s + [x]) == if x in Dedupe(s) then Dedupe(s) else Dedupe(s) + [x]
  {
    assert (s + [x])[..|s|] == s;
  }

  /* ---------------------------------------------------------------------
     Reminders: `/@([^@#\n]+?)(?:\.|\n|$)/g`
     --------------------------------------------------------------------- */

  predicate IsReminderChar(c: char) {
    c != '@' && c != '#' && c != '\n'
  }

  /** The terminator after the lazy group: a `.`, and, unless only a dot
      may end a reminder, a line feed or the end of the text. */
  predicate Terminates(s: string, p: nat, dotOnly: bool) {
    (p < |s| && s[p] == '.') || (!dotOnly && (p == |s| || (p < |s| && s[p] == '\n')))
  }

  /** The lazy group `[^@#\n]+?` extended from `e` to the first position
      where the terminator matches. */
  function LazyStop(s: string, e: nat, dotOnly: bool): (r: Option<nat>)
    requires e <= |s|
    ensures r.Some? ==> e <= r.value <= |s| && Terminates(s, r.value, dotOnly)
    ensures r.Some? ==> forall k :: e <= k < r.value ==> IsReminderChar(s[k]) && !Terminates(s, k, dotOnly)
    decreases |s| - e
  {
    if Terminates(s, e, dotOnly) then Some(e)
    else if e < |s| && IsReminderChar(s[e]) then LazyStop(s, e + 1, dotOnly)
    else None
  }

  /** One match: the `@` at `at`, the group `s[at + 1..stop]` and the
      whole match `s[at..end]`. */
  datatype Hit = Hit(at: nat, stop: nat, end: nat)

  predicate HitAt(s: string, k: nat, dotOnly: bool) {
    k + 1 < |s| && s[k] == '@' && IsReminderChar(s[k + 1]) && LazyStop(s, k + 2, dotOnly).Some?
  }

  /** The match that starts at `k`: it takes the terminator along unless
      that is the end of the text. */
  function HitFrom(s: string, k: nat, dotOnly: bool): (h: Hit)
    requires HitAt(s, k, dotOnly)
    ensures h.at == k && k + 2 <= h.stop <= h.end <= |s|
  {
    var stop := LazyStop(s, k + 2, dotOnly).value;
    Hit(k, stop, if stop < |s| then stop + 1 else stop)
  }

  /** `reminderRegex.exec` from `lastIndex` `i`. */
  function NextReminder(s: string, i: nat, dotOnly: bool): (r: Option<Hit>)
    requires i <= |s|
    ensures r.Some? ==> i <= r.value.at && HitAt(s, r.value.at, dotOnly)
                        && r.value == HitFrom(s, r.value.at, dotOnly)
    decreases |s| - i
  {
    if i == |s| then None
    else if HitAt(s, i, dotOnly) then Some(HitFrom(s, i, dotOnly))
    else NextReminder(s, i + 1, dotOnly)
  }

  /** `exec` finds the leftmost match: no reminder can start between
      `lastIndex` and the one found, and none at all when nothing is
      found. */
  lemma {:induction false} NextReminderIsFirst(s: string, i: nat, dotOnly: bool)
    requires i <= |s|
    ensures NextReminder(s, i, dotOnly).Some? ==>
              forall k :: i <= k < NextReminder(s, i, dotOnly).value.at ==> !HitAt(s, k, dotOnly)
    ensures NextReminder(s, i, dotOnly).None? ==> forall k :: i <= k < |s| ==> !HitAt(s, k, dotOnly)
    decreases |s| - i
  {
    if i < |s| && !HitAt(s, i, dotOnly) {
      NextReminderIsFirst(s, i + 1, dotOnly);
    }
  }

  /** `match[1]` and `match[0]`. */
  datatype RawMatch = RawMatch(capture: string, whole: string)

  function RawOf(s: string, h: Hit): (m: RawMatch)
    requires h.at < h.stop <= h.end <= |s|
  {
    RawMatch(s[h.at + 1..h.stop], s[h.at..h.end])
  }

  /** All matches from position `i` on. */
  function ReminderMatches(s: string, i: nat, dotOnly: bool): seq<RawMatch>
    requires i <= |s|
    decreases |s| - i
  {
    match NextReminder(s, i, dotOnly)
    case None => []
    case Some(h) => [RawOf(s, h)] + ReminderMatches(s, h.end, dotOnly)
  }

  /** A reminder whose text has no `@`, `#`, line feed or dot, followed by a
      dot, is matched whole and is the only match. */
  lemma ReminderMatchesSingle(text: string, dotOnly: bool)
    requires text != []
    requires forall k :: 0 <= k < |text| ==> IsReminderChar(text[k]) && text[k] != '.'
    ensures ReminderMatches("@" + text + ".", 0, dotOnly) == [RawMatch(text, "@" + text + ".")]
  {
    var s := "@" + text + ".";
    LazyStopRun(s, 2, |text| + 1, dotOnly);
    assert HitAt(s, 0, dotOnly);
    assert NextReminder(s, 0, dotOnly) == Some(Hit(0, |text| + 1, |s|));
    assert s[1..|text| + 1] == text;
    assert ReminderMatches(s, |s|, dotOnly) == [];
    assert s[0..|s|] == s;
    assert RawOf(s, Hit(0, |text| + 1, |s|)) == RawMatch(text, s);
  }

  lemma {:induction false} LazyStopRun(s: string, e: nat, p: nat, dotOnly: bool)
    requires e <= p < |s| && s[p] == '.'
    requires forall k :: e <= k < p ==> IsReminderChar(s[k]) && s[k] != '.'
    ensures LazyStop(s, e, dotOnly) == Some(p)
    decreases p - e
  {
    if e < p {
      LazyStopRun(s, e + 1, p, dotOnly);
    }
  }

  /** An entry of the editor's existing reminders: its original text and
      its date. */
  datatype EditorReminder = EditorReminder(originalText: string, date: int)

  /** `new Map(existingReminders.map((r) => [r.original_text, r.date])).get(key)`:
      the date of the last entry with that original text. */
  function ExistingDate(existing: seq<EditorReminder>, key: string): (r: Option<int>)
    ensures r.None? <==> forall k :: 0 <= k < |existing| ==> existing[k].originalText != key
    ensures r.Some? ==> exists k :: 0 <= k < |existing| && existing[k].originalText == key
                                    && existing[k].date == r.value
                                    && forall j :: k < j < |existing| ==> existing[j].originalText != key
  {
    if existing == [] then None
    else
      var last := existing[|existing| - 1];
      if last.originalText == key then Some(last.date)
      else ExistingDate(existing[..|existing| - 1], key)
  }

  datatype ParsedReminder = ParsedReminder(text: string, originalText: string,
                                           parsedDate: Option<int>, reminderText: string)

  /** The body of the reminder loop for one match: the time prefix and the
      text after it, kept when both are non-empty; the date is the
      existing one for the same original text, else the parsed one. */
  function ToReminder(m: RawMatch, baseDate: int, existing: seq<EditorReminder>): (r: Option<ParsedReminder>)
    ensures r.Some? ==> r.value.text != [] && r.value.reminderText != [] && r.value.originalText == m.whole
    ensures r.Some? ==> r.value.parsedDate.Some?
    ensures r.Some? && ExistingDate(existing, m.whole).Some? ==> r.value.parsedDate == ExistingDate(existing, m.whole)
  {
    var fullText := Trim(m.capture);
    match MatchTime(fullText, NoteDayWords)
    case None => None
    case Some(p) => Split(m.whole, fullText, p, baseDate, existing)
  }

  /** The trimmed text split after the time prefix `p` matched:
      `timeText` before it, `reminderText` after it. */
  function Split(whole: string, fullText: string, p: Scan<TimeExpr>, baseDate: int,
                 existing: seq<EditorReminder>): (r: Option<ParsedReminder>)
    requires p.end <= |fullText| && ValidExpr(p.got)
    ensures r.Some? ==> r.value.text != [] && r.value.reminderText != [] && r.value.originalText == whole
    ensures r.Some? ==> r.value.parsedDate.Some?
    ensures r.Some? && ExistingDate(existing, whole).Some? ==> r.value.parsedDate == ExistingDate(existing, whole)
  {
    var timeText := Trim(fullText[..p.end]);
    var reminderText := Trim(fullText[p.end..]);
    if timeText == [] || reminderText == [] then None
    else Some(ParsedReminder(timeText, whole, Some(ReminderDate(existing, whole, p.got, baseDate)), reminderText))
  }

  /** `existingDate ?? parseTimeExpression(timeText, baseDate)`. */
  function ReminderDate(existing: seq<EditorReminder>, key: string, e: TimeExpr, baseDate: int): (r: int)
    requires ValidExpr(e)
    ensures ExistingDate(existing, key).Some? ==> r == ExistingDate(existing, key).value
    ensures ExistingDate(existing, key).None? ==> r == Eval(e, baseDate)
  {
    match ExistingDate(existing, key)
    case Some(d) => d
    case None => Eval(e, baseDate)
  }

  /** The time text is never empty once a pattern matched a non-empty
      prefix of the trimmed text, so a match is kept exactly when text
      follows the time prefix, and then its fields are the trimmed parts. */
  lemma SplitKept(whole: string, fullText: string, p: Scan<TimeExpr>, baseDate: int,
                  existing: seq<EditorReminder>)
    requires 0 < p.end <= |fullText| && ValidExpr(p.got)
    requires !IsSpace(fullText[0])
    ensures Split(whole, fullText, p, baseDate, existing).Some? <==> !IsBlank(fullText[p.end..])
    ensures Split(whole, fullText, p, baseDate, existing).Some? ==>
              Split(whole, fullText, p, baseDate, existing).value.text == Trim(fullText[..p.end])
              && Split(whole, fullText, p, baseDate, existing).value.reminderText == Trim(fullText[p.end..])
  {
    assert fullText[..p.end][0] == fullText[0];
  }

  /** A match is kept exactly when some time pattern matches the trimmed
      capture and text follows the matched prefix. */
  lemma ToReminderKept(m: RawMatch, baseDate: int, existing: seq<EditorReminder>)
    ensures ToReminder(m, baseDate, existing).Some? <==>
              MatchTime(Trim(m.capture), NoteDayWords).Some?
              && !IsBlank(Trim(m.capture)[MatchTime(Trim(m.capture), NoteDayWords).value.end..])
  {
    var fullText := Trim(m.capture);
    match MatchTime(fullText, NoteDayWords)
    case None =>
    case Some(p) =>
      SplitKept(m.whole, fullText, p, baseDate, existing);
  }

  /** `ToReminder` with its context fixed, as the per-match step of
      the filter. */
  function ReminderStep(baseDate: int, existing: seq<EditorReminder>): RawMatch -> Option<ParsedReminder> {
    m => ToReminder(m, baseDate, existing)
  }

  /** The reminders kept from a list of matches, in order. */
  function Kept(ms: seq<RawMatch>, baseDate: int, existing: seq<EditorReminder>): (r: seq<ParsedReminder>)
    ensures |r| <= |ms|
  {
    FilterMap(ms, ReminderStep(baseDate, existing))
  }

  /** The reminders `parseNoteContent` returns. */
  function Reminders(content: string, baseDate: int, existing: seq<EditorReminder>): seq<ParsedReminder> {
    Kept(ReminderMatches(content, 0, false), baseDate, existing)
  }

  /** Every kept reminder is what `ToReminder` made of one of the
      matches. */
  lemma KeptFacts(ms: seq<RawMatch>, baseDate: int, existing: seq<EditorReminder>)
    ensures forall r :: r in Kept(ms, baseDate, existing) ==>
              exists j :: 0 <= j < |ms| && ToReminder(ms[j], baseDate, existing) == Some(r)
  {
    var f := ReminderStep(baseDate, existing);
    FilterMapFrom(ms, f);
    forall r | r in Kept(ms, baseDate, existing)
      ensures exists j :: 0 <= j < |ms| && ToReminder(ms[j], baseDate, existing) == Some(r)
    {
      var k :| 0 <= k < |FilterMap(ms, f)| && FilterMap(ms, f)[k] == r;
      var j :| 0 <= j < |ms| && f(ms[j]) == Some(FilterMap(ms, f)[k]);
      assert f(ms[j]) == ToReminder(ms[j], baseDate, existing);
    }
  }

  /** One round of the reminder loop: the match moves from the matches
      still ahead to the ones seen. */
  lemma ReminderLoopStep(s: string, i: nat, seen: seq<RawMatch>, dotOnly: bool)
    requires i <= |s| && NextReminder(s, i, dotOnly).Some?
    requires ReminderMatches(s, 0, dotOnly) == seen + ReminderMatches(s, i, dotOnly)
    ensures ReminderMatches(s, 0, dotOnly) ==
            (seen + [RawOf(s, NextReminder(s, i, dotOnly).value)])
            + ReminderMatches(s, NextReminder(s, i, dotOnly).value.end, dotOnly)
  {
    var h := NextReminder(s, i, dotOnly).value;
    assert ReminderMatches(s, i, dotOnly) == [RawOf(s, h)] + ReminderMatches(s, h.end, dotOnly);
    ShiftHead(ReminderMatches(s, 0, dotOnly), seen, RawOf(s, h), ReminderMatches(s, h.end, dotOnly));
  }

  lemma KeptSnoc(ms: seq<RawMatch>, m: RawMatch, baseDate: int, existing: seq<EditorReminder>)
    ensures Kept(ms + [m], baseDate, existing) ==
            Kept(ms, baseDate, existing) + AsSeq(ToReminder(m, baseDate, existing))
  {
    FilterMapSnoc(ms, m, ReminderStep(baseDate, existing));
  }

  /** The reminder loop of `parseNoteContent`. */
  method ParseReminders(content: string, baseDate: int, existing: seq<EditorReminder>)
    returns (reminders: seq<ParsedReminder>)
    ensures reminders == Reminders(content, baseDate, existing)
  {
    var lastIndex := 0;
    reminders := [];
    ghost var seen: seq<RawMatch> := [];
    var hit := NextReminder(content, lastIndex, false);
    while hit.Some?
      invariant lastIndex <= |content|
      invariant hit == NextReminder(content, lastIndex, false)
      invariant ReminderMatches(content, 0, false) == seen + ReminderMatches(content, lastIndex, false)
      invariant reminders == Kept(seen, baseDate, existing)
      decreases |content| - lastIndex
    {
      var m := RawOf(content, hit.value);
      ReminderLoopStep(content, lastIndex, seen, false);
      KeptSnoc(seen, m, baseDate, existing);
      var r := ToReminder(m, baseDate, existing);
      if r.Some? {
        reminders := reminders + [r.value];
      }
      seen := seen + [m];
      lastIndex := hit.value.end;
      hit := NextReminder(content, lastIndex, false);
    }
    assert seen + [] == seen;
  }

  /** `parseNoteContent(content, baseDate, existingReminders)`. */
  method ParseNoteContent(content: string, baseDate: int, existing: seq<EditorReminder>)
    returns (tags: seq<ParsedTag>, reminders: seq<ParsedReminder>)
    ensures tags == Tags(content)
    ensures reminders == Reminders(content, baseDate, existing)
  {
    tags := ParseTags(content);
    reminders := ParseReminders(content, baseDate, existing);
  }

  /** No character that ends or interrupts a reminder. */
  predicate PlainText(text: string) {
    forall k :: 0 <= k < |text| ==> IsReminderChar(text[k]) && text[k] != '.'
  }

  /** `parseReminder(text, baseDate)`: the first reminder of `@text.`. */
  method ParseReminder(text: string, baseDate: int) returns (r: Option<ParsedReminder>)
    ensures text != [] && PlainText(text) ==>
              r == ToReminder(RawMatch(text, "@" + text + "."), baseDate, [])
    ensures r.Some? ==> r.value.text != [] && r.value.reminderText != [] && r.value.parsedDate.Some?
  {
    var _, reminders := ParseNoteContent("@" + text + ".", baseDate, []);
    if text != [] && PlainText(text) {
      SingleReminder(text, baseDate);
    }
    if |reminders| > 0 {
      KeptHead(ReminderMatches("@" + text + ".", 0, false), baseDate, []);
      r := Some(reminders[0]);
    } else {
      r := None;
    }
  }

  /** The first kept reminder has a text, a reminder text and a date. */
  lemma KeptHead(ms: seq<RawMatch>, baseDate: int, existing: seq<EditorReminder>)
    requires |Kept(ms, baseDate, existing)| > 0
    ensures var r := Kept(ms, baseDate, existing)[0];
            r.text != [] && r.reminderText != [] && r.parsedDate.Some?
  {
    KeptFacts(ms, baseDate, existing);
    var r := Kept(ms, baseDate, existing)[0];
    assert r in Kept(ms, baseDate, existing);
    var j :| 0 <= j < |ms| && ToReminder(ms[j], baseDate, existing) == Some(r);
  }

  /** `@text.` with plain text holds one match, kept when `ToReminder`
      accepts it. */
  lemma SingleReminder(text: string, baseDate: int)
    requires text != [] && PlainText(text)
    ensures Reminders("@" + text + ".", baseDate, [])
            == AsSeq(ToReminder(RawMatch(text, "@" + text + "."), baseDate, []))
  {
    ReminderMatchesSingle(text, false);
    var m := RawMatch(text, "@" + text + ".");
    KeptSnoc([], m, baseDate, []);
    assert [] + [m] == [m];
  }
}
