/** The note editor of the main dashboard: one text buffer whose first
    line is the note's title and whose other lines are its body, the tags
    and reminders parsed out of it, a formatting key binding, the date
    read-out and the rule that picks the layout for the screen size. */
module MainEditor {
  import opened Common
  import NoteParser
  import EditorCommands

  /* ---------------------------------------------------------------------
     Date read-out
     --------------------------------------------------------------------- */

  /** `n.toString().padStart(2, '0')`. */
  function Pad2(n: nat): (r: string)
    ensures DigitString(r) && |r| >= 2
    ensures n < 100 ==> |r| == 2 && DigitsValue(r) == n
  {
    DecimalRoundTrip(n);
    if n < 10 then "0" + Decimal(n) else Decimal(n)
  }

  /** `getHours()` and `getMinutes()` of a local timestamp. */
  function HoursOf(t: int): (h: nat)
    ensures h < 24
  {
    (t % Day) / Hour
  }

  function MinutesOf(t: int): (m: nat)
    ensures m < 60
  {
    (t % Hour) / Minute
  }

  /** `getMonth() + 1` and `getDate()`. */
  function MonthOf(t: int): (m: nat)
    ensures 1 <= m <= 12
  {
    CivilFromDays(DayOf(t)).1
  }

  function DateOf(t: int): (d: nat)
    ensures 1 <= d <= 31
  {
    CivilFromDays(DayOf(t)).2
  }

  const NoDateText: string := "날짜 정보 없음"

  /** `formatDate(date)`: `M/D HH:MM`, or the no-date text when the value
      is not a date. The last five characters read back as the hour and
      the minute. */
  function FormatDate(date: Option<int>): (r: string)
    ensures date.None? <==> r == NoDateText
    ensures date.Some? ==>
              |r| >= 9 && r[|r| - 6] == ' ' && r[|r| - 3] == ':'
              && DigitString(r[|r| - 5..|r| - 3]) && DigitsValue(r[|r| - 5..|r| - 3]) == HoursOf(date.value)
              && DigitString(r[|r| - 2..]) && DigitsValue(r[|r| - 2..]) == MinutesOf(date.value)
  {
    match date
    case None => NoDateText
    case Some(t) =>
      var time := Pad2(HoursOf(t)) + ":" + Pad2(MinutesOf(t));
      var r := Decimal(MonthOf(t)) + "/" + Decimal(DateOf(t)) + " " + time;
      StampLayout(Decimal(MonthOf(t)), Decimal(DateOf(t)), Pad2(HoursOf(t)), Pad2(MinutesOf(t)));
      assert NoDateText[0] != r[0] by {
        assert IsDigit(Decimal(MonthOf(t))[0]);
      }
      r
  }

  /** Where the parts of `m/d hh:mm` sit in the text. */
  lemma StampLayout(m: string, d: string, hh: string, mm: string)
    requires |m| >= 1 && |d| >= 1 && |hh| == 2 && |mm| == 2
    ensures var r := m + "/" + d + " " + (hh + ":" + mm);
            |r| == |m| + |d| + 7 && r[0] == m[0]
            && r[..|m|] == m && r[|m|] == '/' && r[|m| + 1..|r| - 6] == d
            && r[|r| - 6] == ' ' && r[|r| - 5..|r| - 3] == hh && r[|r| - 3] == ':' && r[|r| - 2..] == mm
  {
    var r := m + "/" + d + " " + (hh + ":" + mm);
    assert r == m + ("/" + d + " " + (hh + ":" + mm));
    assert r[..|m|] == m;
    assert r[|m| + 1..|r| - 6] == d;
    assert r[|r| - 5..|r| - 3] == hh;
    assert r[|r| - 2..] == mm;
  }

  /** The text before the `/` reads back as the month and the text between
      the `/` and the space as the day of the month. */
  lemma FormatDateReadsBack(t: int)
    ensures var r := FormatDate(Some(t));
            var i := FirstIndex(r, '/');
            i + 1 <= |r| - 6
            && DigitString(r[..i]) && DigitsValue(r[..i]) == MonthOf(t)
            && DigitString(r[i + 1..|r| - 6]) && DigitsValue(r[i + 1..|r| - 6]) == DateOf(t)
  {
    var r := FormatDate(Some(t));
    var m := Decimal(MonthOf(t));
    var d := Decimal(DateOf(t));
    StampLayout(m, d, Pad2(HoursOf(t)), Pad2(MinutesOf(t)));
    assert forall j :: 0 <= j < |m| ==> r[j] == r[..|m|][j] && IsDigit(m[j]);
    assert FirstIndex(r, '/') == |m|;
    DecimalRoundTrip(MonthOf(t));
    DecimalRoundTrip(DateOf(t));
  }

  /* ---------------------------------------------------------------------
     The formatting key binding
     --------------------------------------------------------------------- */

  /** The change `toggleMarkdownFormatting` dispatches: the selection is
      replaced by itself between two copies of the marker; no selection is
      named, so the view carries the old one through the change. */
  function FormattingTr(st: EditorCommands.EditorState, formatting: string): (tr: EditorCommands.Transaction)
    requires EditorCommands.Valid(st)
    ensures EditorCommands.Accepts(st, tr) && tr.selection.None?
  {
    var f, t := st.sel.from, st.sel.to;
    EditorCommands.Transaction(EditorCommands.Change(f, t, formatting + st.doc[f..t] + formatting), None)
  }

  function AfterFormatting(st: EditorCommands.EditorState, formatting: string): (r: EditorCommands.EditorState)
    requires EditorCommands.Valid(st)
    ensures EditorCommands.Valid(r)
  {
    EditorCommands.StepValid(st, FormattingTr(st, formatting));
    EditorCommands.Step(st, FormattingTr(st, formatting))
  }

  /** The selection is wrapped in the marker. A cursor stays in front of
      the inserted pair; a range grows to cover the wrapped text. */
  lemma FormattingFacts(st: EditorCommands.EditorState, formatting: string)
    requires EditorCommands.Valid(st)
    ensures var r := AfterFormatting(st, formatting);
            var f, t := st.sel.from, st.sel.to;
            r.doc == st.doc[..f] + formatting + st.doc[f..t] + formatting + st.doc[t..]
            && |r.doc| == |st.doc| + 2 * |formatting|
            && (f == t ==> r.sel == EditorCommands.Cursor(f))
            && (f < t ==> r.sel == EditorCommands.Range(f, t + 2 * |formatting|))
  {
    var f, t := st.sel.from, st.sel.to;
    if f == t {
      assert st.doc[f..t] == [];
    }
  }

  /** The key binding writes the same document as the toolbar's inline
      toggle; the two differ only where a non-empty marker is inserted at
      a cursor: the toolbar puts the cursor between the markers, the key
      binding leaves it in front of them. */
  lemma FormattingVsToolbar(st: EditorCommands.EditorState, formatting: string)
    requires EditorCommands.Valid(st)
    ensures AfterFormatting(st, formatting).doc == EditorCommands.AfterInline(st, formatting).doc
    ensures (AfterFormatting(st, formatting) == EditorCommands.AfterInline(st, formatting))
              <==> (st.sel.from < st.sel.to || formatting == [])
  {
    FormattingFacts(st, formatting);
    EditorCommands.InlineFacts(st, formatting);
  }

  /** `toggleMarkdownFormatting(view, formatting)`; the binding reports the
      key as handled. */
  method ToggleMarkdownFormatting(view: EditorCommands.View, formatting: string) returns (handled: bool)
    requires EditorCommands.Valid(view.State())
    modifies view
    ensures handled
    ensures view.State() == AfterFormatting(old(view.State()), formatting)
  {
    var from, to := view.sel.from, view.sel.to;
    var selection := view.doc[from..to];
    var formattedText := formatting + selection + formatting;
    view.Dispatch(EditorCommands.Transaction(EditorCommands.Change(from, to, formattedText), None));
    return true;
  }

  /* ---------------------------------------------------------------------
     Layout
     --------------------------------------------------------------------- */

  datatype ViewMode = EditorOnly | Split | Preview

  /** A layout the screen-size effect leaves alone: no editor-only layout
      on a desktop, no split layout off it. */
  predicate Settled(isDesktop: bool, mode: ViewMode) {
    !(isDesktop && mode == EditorOnly) && !(!isDesktop && mode == Split)
  }

  /** The screen-size effect: editor-only becomes split on a desktop,
      split becomes editor-only off it. */
  function AdjustViewMode(isDesktop: bool, mode: ViewMode): (r: ViewMode)
    ensures Settled(isDesktop, r)
    ensures Settled(isDesktop, mode) ==> r == mode
    ensures r != mode ==> r != Preview && mode != Preview
  {
    if isDesktop && mode == EditorOnly then Split
    else if !isDesktop && mode == Split then EditorOnly
    else mode
  }

  /** The effect re-runs after its own update and then changes nothing. */
  lemma AdjustViewModeSettles(isDesktop: bool, mode: ViewMode)
    ensures AdjustViewMode(isDesktop, AdjustViewMode(isDesktop, mode)) == AdjustViewMode(isDesktop, mode)
  {
  }

  /** The initial layout: split on a desktop, editor-only otherwise. */
  function InitialViewMode(isDesktop: bool): (r: ViewMode)
    ensures Settled(isDesktop, r) && r != Preview
  {
    if isDesktop then Split else EditorOnly
  }

  /* ---------------------------------------------------------------------
     Title and body
     --------------------------------------------------------------------- */

  /** `s.split('\n')`. */
  function SplitLines(s: string): (r: seq<string>)
    ensures |r| >= 1
    ensures forall l :: l in r ==> '\n' !in l
    decreases |s|
  {
    if '\n' !in s then [s]
    else
      var k := FirstIndex(s, '\n');
      assert '\n' !in s[..k];
      [s[..k]] + SplitLines(s[k + 1..])
  }

  /** `lines.join('\n')`. */
  function JoinLines(lines: seq<string>): string {
    if |lines| == 0 then ""
    else if |lines| == 1 then lines[0]
    else lines[0] + "\n" + JoinLines(lines[1..])
  }

  /** Joining the pieces with the separator gives the text back. */
  lemma {:induction false} JoinSplit(s: string)
    ensures JoinLines(SplitLines(s)) == s
    decreases |s|
  {
    if '\n' in s {
      var k := FirstIndex(s, '\n');
      JoinSplit(s[k + 1..]);
      assert SplitLines(s)[1..] == SplitLines(s[k + 1..]);
      assert s == s[..k] + "\n" + s[k + 1..];
    }
  }

  datatype TitleBody = TitleBody(title: string, body: string)

  /** The title is the first line (`lines[0] || ''`), the body the other
      lines joined back with line breaks. */
  function SplitTitle(content: string): TitleBody {
    var lines := SplitLines(content);
    TitleBody(if lines[0] == "" then "" else lines[0], JoinLines(lines[1..]))
  }

  /** The title is the text before the first line break and the body the
      text after it; without a line break the title is the whole content
      and the body is empty. */
  lemma SplitTitleFacts(content: string)
    ensures '\n' !in SplitTitle(content).title
    ensures '\n' in content ==> content == SplitTitle(content).title + "\n" + SplitTitle(content).body
    ensures '\n' !in content ==> SplitTitle(content) == TitleBody(content, "")
  {
    if '\n' in content {
      SplitAtBreak(content);
    } else {
      assert SplitLines(content) == [content];
    }
  }

  /** The split of a content with a line break: the text before it, then
      the text after it. */
  lemma SplitAtBreak(content: string)
    requires '\n' in content
    ensures var k := FirstIndex(content, '\n');
            SplitTitle(content) == TitleBody(content[..k], content[k + 1..])
            && content == content[..k] + "\n" + content[k + 1..]
  {
    var k := FirstIndex(content, '\n');
    var lines := SplitLines(content);
    assert lines[0] == content[..k] && lines[1..] == SplitLines(content[k + 1..]);
    JoinSplit(content[k + 1..]);
    assert content == content[..k] + "\n" + content[k + 1..];
  }

  /** A title without line breaks, a line break and any body split back
      into that title and that body. */
  lemma SplitTitleRoundTrip(title: string, body: string)
    requires '\n' !in title
    ensures SplitTitle(title + "\n" + body) == TitleBody(title, body)
  {
    var s := title + "\n" + body;
    assert s[|title|] == '\n';
    assert '\n' in s;
    var k := FirstIndex(s, '\n');
    assert forall j :: 0 <= j < |title| ==> s[j] == title[j];
    assert k == |title|;
    assert s[..k] == title && s[k + 1..] == body;
    JoinSplit(body);
  }

  /* ---------------------------------------------------------------------
     Reminders
     --------------------------------------------------------------------- */

  /** A reminder of the editor: its id, its text, its date, whether it is
      done and whether it is switched on (possibly unset), and the
      `@... .` text it was parsed from. */
  datatype Entry = Entry(id: string, text: string, date: int, completed: bool,
                         enabled: Option<bool>, originalText: string)

  /** A reminder as stored with the note. */
  datatype StoredReminder = StoredReminder(id: string, reminderText: string, reminderTime: int,
                                           completed: bool, enabled: Option<bool>, originalText: string)

  datatype StoredNote = StoredNote(id: string, title: string, content: string, reminders: seq<StoredReminder>)

  /** The stored reminders as editor reminders. */
  function ExistingOf(note: StoredNote): (r: seq<Entry>)
    ensures |r| == |note.reminders|
    ensures forall k :: 0 <= k < |r| ==>
              r[k].id == note.reminders[k].id && r[k].originalText == note.reminders[k].originalText
              && r[k].date == note.reminders[k].reminderTime && r[k].completed == note.reminders[k].completed
  {
    seq(|note.reminders|, k requires 0 <= k < |note.reminders| =>
      var s := note.reminders[k];
      Entry(s.id, s.reminderText, s.reminderTime, s.completed, s.enabled, s.originalText))
  }

  /** What the parser reads of the editor's reminders: the original text
      and the date. */
  function AsExisting(entries: seq<Entry>): (r: seq<NoteParser.EditorReminder>)
    ensures |r| == |entries|
    ensures forall k :: 0 <= k < |r| ==> r[k].originalText == entries[k].originalText && r[k].date == entries[k].date
  {
    seq(|entries|, k requires 0 <= k < |entries| => NoteParser.EditorReminder(entries[k].originalText, entries[k].date))
  }

  /** `entries.find((e) => e.original_text === key)`: the first entry with
      that original text. */
  function Find(entries: seq<Entry>, key: string): (r: Option<Entry>)
    ensures r.None? <==> forall e :: e in entries ==> e.originalText != key
    ensures r.Some? ==> r.value in entries && r.value.originalText == key
    ensures r.Some? ==> exists k :: 0 <= k < |entries| && entries[k] == r.value
                                    && forall j :: 0 <= j < k ==> entries[j].originalText != key
  {
    if entries == [] then None
    else if entries[0].originalText == key then Some(entries[0])
    else
      var r := Find(entries[1..], key);
      assert forall e :: e in entries[1..] ==> e in entries;
      if r.Some? then
        assert exists k :: 0 <= k < |entries| && entries[k] == r.value
                           && forall j :: 0 <= j < k ==> entries[j].originalText != key by {
          var k :| 0 <= k < |entries[1..]| && entries[1..][k] == r.value
                   && forall j :: 0 <= j < k ==> entries[1..][j].originalText != key;
          assert entries[k + 1] == r.value;
          forall j | 0 <= j < k + 1
            ensures entries[j].originalText != key
          {
            if j > 0 {
              assert entries[j] == entries[1..][j - 1];
            }
          }
        }
        r
      else r
  }

  /** The parser finds a stored date for an original text exactly when
      the editor finds a reminder with that text. */
  lemma ExistingMatchesFind(entries: seq<Entry>, key: string)
    ensures NoteParser.ExistingDate(AsExisting(entries), key).Some? <==> Find(entries, key).Some?
  {
    var ex := AsExisting(entries);
    if Find(entries, key).Some? {
      var k :| 0 <= k < |entries| && entries[k] == Find(entries, key).value;
      assert ex[k].originalText == key;
    }
  }

  /** `` `temp-${originalText}-${Date.now()}` ``. */
  function TempId(originalText: string, now: int): (r: string)
    ensures StartsWith(r, "temp-") && r != ""
  {
    "temp-" + originalText + "-" + IntText(now)
  }

  /** One parsed reminder with a valid date, matched against the editor's
      reminder of the same original text. A match keeps its id (unless
      empty), its done flag and its switch (on when unset), and, while
      editing (`keepDate`), its date; an unmatched reminder gets a
      temporary id, is not done and is switched on. */
  function Reconcile(p: NoteParser.ParsedReminder, existing: Option<Entry>, keepDate: bool, now: int): (r: Entry)
    requires p.parsedDate.Some?
    ensures r.text == p.reminderText && r.originalText == p.originalText && r.id != "" && r.enabled.Some?
    ensures existing.None? ==>
              StartsWith(r.id, "temp-") && !r.completed && r.enabled == Some(true) && r.date == p.parsedDate.value
    ensures existing.Some? ==>
              r.completed == existing.value.completed
              && (existing.value.id != "" ==> r.id == existing.value.id)
              && (existing.value.enabled.Some? ==> r.enabled == existing.value.enabled)
              && (existing.value.enabled.None? ==> r.enabled == Some(true))
              && r.date == (if keepDate then existing.value.date else p.parsedDate.value)
  {
    var id := if existing.Some? && existing.value.id != "" then existing.value.id else TempId(p.originalText, now);
    var date := if keepDate && existing.Some? then existing.value.date else p.parsedDate.value;
    var completed := existing.Some? && existing.value.completed;
    var enabled := if existing.Some? && existing.value.enabled.Some? then existing.value.enabled.value else true;
    Entry(id, p.reminderText, date, completed, Some(enabled), p.originalText)
  }

  /** `parsed.filter(has a valid date).map(reconcile)`. */
  function Reconciled(parsed: seq<NoteParser.ParsedReminder>, prev: seq<Entry>, keepDate: bool, now: int): (r: seq<Entry>)
    ensures |r| <= |parsed|
  {
    if parsed == [] then []
    else
      var p := parsed[0];
      var rest := Reconciled(parsed[1..], prev, keepDate, now);
      if p.parsedDate.Some? then [Reconcile(p, Find(prev, p.originalText), keepDate, now)] + rest
      else rest
  }

  /** Every reminder of the list is the reconciliation of a parsed
      reminder with a valid date. */
  lemma {:induction false} ReconciledFrom(parsed: seq<NoteParser.ParsedReminder>, prev: seq<Entry>,
                                          keepDate: bool, now: int)
    ensures forall e :: e in Reconciled(parsed, prev, keepDate, now) ==>
              exists p :: p in parsed && p.parsedDate.Some? && e == Reconcile(p, Find(prev, p.originalText), keepDate, now)
  {
    if parsed != [] {
      ReconciledFrom(parsed[1..], prev, keepDate, now);
      assert forall q :: q in parsed[1..] ==> q in parsed;
    }
  }

  /** When every parsed reminder has a date, the list keeps all of them,
      in order. */
  lemma {:induction false} ReconciledAllDated(parsed: seq<NoteParser.ParsedReminder>, prev: seq<Entry>,
                                              keepDate: bool, now: int)
    requires forall p :: p in parsed ==> p.parsedDate.Some?
    ensures |Reconciled(parsed, prev, keepDate, now)| == |parsed|
    ensures forall k :: 0 <= k < |parsed| ==>
              Reconciled(parsed, prev, keepDate, now)[k] == Reconcile(parsed[k], Find(prev, parsed[k].originalText), keepDate, now)
  {
    if parsed != [] {
      var tail := parsed[1..];
      assert forall q :: q in tail ==> q in parsed;
      ReconciledAllDated(tail, prev, keepDate, now);
      var rest := Reconciled(tail, prev, keepDate, now);
      var r := Reconciled(parsed, prev, keepDate, now);
      assert parsed[0] in parsed;
      assert r == [Reconcile(parsed[0], Find(prev, parsed[0].originalText), keepDate, now)] + rest;
      forall k | 0 < k < |parsed|
        ensures r[k] == Reconcile(parsed[k], Find(prev, parsed[k].originalText), keepDate, now)
      {
        assert r[k] == rest[k - 1] && parsed[k] == tail[k - 1];
      }
    }
  }

  /** Every reminder the parser returns has a date, and a reminder whose
      original text the editor already knows carries the date of the last
      known reminder with that text. */
  lemma ParsedRemindersDated(content: string, baseDate: int, prev: seq<Entry>)
    ensures forall p :: p in NoteParser.Reminders(content, baseDate, AsExisting(prev)) ==>
              p.parsedDate.Some?
              && (NoteParser.ExistingDate(AsExisting(prev), p.originalText).Some? ==>
                    p.parsedDate == NoteParser.ExistingDate(AsExisting(prev), p.originalText))
  {
    NoteParser.KeptFacts(NoteParser.ReminderMatches(content, 0, false), baseDate, AsExisting(prev));
  }

  /** `parsedTags.map((t) => t.text)`. */
  function TagNames(tags: seq<NoteParser.ParsedTag>): (r: seq<string>)
    ensures |r| == |tags| && forall k :: 0 <= k < |r| ==> r[k] == tags[k].text
  {
    seq(|tags|, k requires 0 <= k < |tags| => tags[k].text)
  }

  /** The note shown in the editor buffer: title line, then body. */
  function InitialContent(note: StoredNote): string {
    note.title + "\n" + note.content
  }

  /** The reminders after loading a note. */
  function ResetReminders(note: StoredNote, baseDate: int, now: int): seq<Entry> {
    var existing := ExistingOf(note);
    Reconciled(NoteParser.Reminders(InitialContent(note), baseDate, AsExisting(existing)), existing, false, now)
  }

  /** The reminders after a parse of the edited content against the
      current ones. */
  function EditReminders(content: string, prev: seq<Entry>, baseDate: int, now: int): seq<Entry> {
    Reconciled(NoteParser.Reminders(content, baseDate, AsExisting(prev)), prev, true, now)
  }

  /** After loading a note, a reminder whose text matches a stored one
      keeps the first such reminder's done flag (and id when it has one),
      and takes the date of the last stored reminder with that text; an
      unmatched one is new, not done and switched on. */
  lemma ResetRemindersFacts(note: StoredNote, baseDate: int, now: int, e: Entry)
    requires e in ResetReminders(note, baseDate, now)
    ensures var existing := ExistingOf(note);
            var found := Find(existing, e.originalText);
            (found.Some? ==>
               e.completed == found.value.completed
               && (found.value.id != "" ==> e.id == found.value.id)
               && NoteParser.ExistingDate(AsExisting(existing), e.originalText) == Some(e.date))
            && (found.None? ==> StartsWith(e.id, "temp-") && !e.completed && e.enabled == Some(true))
  {
    var existing := ExistingOf(note);
    var parsed := NoteParser.Reminders(InitialContent(note), baseDate, AsExisting(existing));
    ParsedRemindersDated(InitialContent(note), baseDate, existing);
    ReconciledFrom(parsed, existing, false, now);
    var p :| p in parsed && p.parsedDate.Some? && e == Reconcile(p, Find(existing, p.originalText), false, now);
    ExistingMatchesFind(existing, p.originalText);
  }

  /** While editing, a reminder whose text matches a current one keeps
      that reminder's id, done flag, switch and date; an unmatched one is
      new, not done and switched on, with the parsed date. */
  lemma EditRemindersFacts(content: string, prev: seq<Entry>, baseDate: int, now: int, e: Entry)
    requires forall q :: q in prev ==> q.id != "" && q.enabled.Some?
    requires e in EditReminders(content, prev, baseDate, now)
    ensures var found := Find(prev, e.originalText);
            (found.Some? ==> e == found.value.(text := e.text))
            && (found.None? ==> StartsWith(e.id, "temp-") && !e.completed && e.enabled == Some(true))
  {
    ReconciledFrom(NoteParser.Reminders(content, baseDate, AsExisting(prev)), prev, true, now);
  }

  /** Every reminder after a parse has a non-empty id and a set switch,
      so a later parse finds what it matches by original text with both. */
  lemma EditRemindersHaveIds(content: string, prev: seq<Entry>, baseDate: int, now: int)
    ensures forall e :: e in EditReminders(content, prev, baseDate, now) ==> e.id != "" && e.enabled.Some?
  {
    ReconciledFrom(NoteParser.Reminders(content, baseDate, AsExisting(prev)), prev, true, now);
  }

  /** `parseNoteContent` against the editor's reminders, then the tag
      texts and the reconciled reminders. */
  method ParseAgainst(content: string, baseDate: int, prev: seq<Entry>, keepDate: bool, now: int)
    returns (tags: seq<string>, reminders: seq<Entry>)
    ensures tags == TagNames(NoteParser.Tags(content))
    ensures reminders == Reconciled(NoteParser.Reminders(content, baseDate, AsExisting(prev)), prev, keepDate, now)
  {
    var parsedTags, parsedReminders := NoteParser.ParseNoteContent(content, baseDate, AsExisting(prev));
    tags := TagNames(parsedTags);
    reminders := Reconciled(parsedReminders, prev, keepDate, now);
  }

  /** The payload of a save. */
  datatype SavedNote = SavedNote(id: string, title: string, content: string, tags: seq<string>,
                                 reminders: seq<Entry>)

  /** The editor's state: the buffer, the tags and reminders parsed from
      it, and whether the next parse is the one the loading of a note
      already did. */
  class NoteEditor {
    var noteId: string
    var content: string
    var tags: seq<string>
    var reminders: seq<Entry>
    var resetting: bool

    constructor(noteId: string)
      ensures this.noteId == noteId && content == "" && tags == [] && reminders == [] && !resetting
    {
      this.noteId := noteId;
      content := "";
      tags := [];
      reminders := [];
      resetting := false;
    }

    /** `resetStateFromNote(note)`. */
    method ResetFromNote(note: StoredNote, baseDate: int, now: int)
      modifies this
      ensures noteId == note.id && resetting
      ensures content == InitialContent(note)
      ensures tags == TagNames(NoteParser.Tags(content))
      ensures reminders == ResetReminders(note, baseDate, now)
    {
      noteId, resetting := note.id, true;
      content := note.title + "\n" + note.content;
      tags, reminders := ParseAgainst(content, baseDate, ExistingOf(note), false, now);
    }

    /** The editor's change handler. */
    method SetContent(value: string)
      modifies this
      ensures content == value
      ensures noteId == old(noteId) && tags == old(tags) && reminders == old(reminders) && resetting == old(resetting)
    {
      content := value;
    }

    /** The parse effect: skipped once right after a note was loaded,
        otherwise the tags and reminders are parsed again from the buffer. */
    method ParseEffect(baseDate: int, now: int)
      modifies this
      ensures !resetting && noteId == old(noteId) && content == old(content)
      ensures old(resetting) ==> tags == old(tags) && reminders == old(reminders)
      ensures !old(resetting) ==>
                tags == TagNames(NoteParser.Tags(content))
                && reminders == EditReminders(content, old(reminders), baseDate, now)
    {
      if resetting {
        resetting := false;
        return;
      }
      tags, reminders := ParseAgainst(content, baseDate, reminders, true, now);
    }

    /** `handleSave`: the title line, the body, the tags and reminders. */
    method Save() returns (saved: SavedNote)
      ensures saved == SavedNote(noteId, SplitTitle(content).title, SplitTitle(content).body, tags, reminders)
    {
      var split := SplitTitle(content);
      saved := SavedNote(noteId, split.title, split.body, tags, reminders);
    }
  }

  /** Saving right after loading a note whose title has no line break
      gives back the note's title and content. */
  lemma LoadThenSaveRoundTrip(note: StoredNote)
    requires '\n' !in note.title
    ensures SplitTitle(InitialContent(note)) == TitleBody(note.title, note.content)
  {
    SplitTitleRoundTrip(note.title, note.content);
  }
}
