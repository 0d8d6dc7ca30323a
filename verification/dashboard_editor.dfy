/** The dashboard's note editor: a title field and a content area, the
    reminders the `useNoteParser` hook finds in the content merged with
    the note's stored reminders, and save and cancel. On save the stored
    reminders are fetched again and matched by text, so a reminder that
    keeps its text keeps its id, its done flag and its date. */
module DashboardEditor {
  import opened Common
  import NoteParser
  import UseNoteParser

  /** A reminder as the editor holds it. */
  datatype EditorReminder = EditorReminder(id: string, text: string, date: int, completed: bool, originalText: string)

  /** A reminder row fetched again from the database. */
  datatype FreshRow = FreshRow(id: string, reminderText: string, reminderTime: int, completed: bool)

  /** A reminder as saved with the note. */
  datatype SavedReminder = SavedReminder(id: string, noteId: string, text: string, date: int,
                                         completed: bool, originalText: string)

  datatype Note = Note(id: string, title: string, content: string, tags: seq<string>,
                       reminders: seq<EditorReminder>, updatedAt: int)

  datatype SavedNote = SavedNote(id: string, title: string, content: string, tags: seq<string>,
                                 reminders: seq<SavedReminder>, updatedAt: int)

  /** `new Map(list.map((r) => [r.text, r])).get(key)`: a later entry
      overwrites an earlier one, so the last entry with the text wins. */
  function LastByText(rs: seq<EditorReminder>, key: string): (r: Option<EditorReminder>)
    ensures r.None? <==> forall x :: x in rs ==> x.text != key
    ensures r.Some? ==> r.value in rs && r.value.text == key
    ensures r.Some? ==> exists k :: 0 <= k < |rs| && rs[k] == r.value
                                    && forall j :: k < j < |rs| ==> rs[j].text != key
  {
    if rs == [] then None
    else if rs[|rs| - 1].text == key then Some(rs[|rs| - 1])
    else
      var init := rs[..|rs| - 1];
      var r := LastByText(init, key);
      assert forall x :: x in init ==> x in rs;
      assert forall x :: x in rs ==> x in init || x == rs[|rs| - 1];
      if r.Some? then
        assert exists k :: 0 <= k < |rs| && rs[k] == r.value
                           && forall j :: k < j < |rs| ==> rs[j].text != key by {
          var k :| 0 <= k < |init| && init[k] == r.value && forall j :: k < j < |init| ==> init[j].text != key;
          assert rs[k] == r.value;
          forall j | k < j < |rs|
            ensures rs[j].text != key
          {
            if j < |init| {
              assert rs[j] == init[j];
            }
          }
        }
        r
      else r
  }

  /* ---------------------------------------------------------------------
     The displayed reminders
     --------------------------------------------------------------------- */

  /** One parsed reminder against the stored ones: a stored reminder with
      the same reminder text lends it its date. */
  function MergeOne(p: UseNoteParser.HookReminder, stored: seq<EditorReminder>): (r: UseNoteParser.HookReminder)
    ensures r.text == p.text && r.originalText == p.originalText && r.reminderText == p.reminderText
    ensures LastByText(stored, p.reminderText).None? ==> r == p
    ensures LastByText(stored, p.reminderText).Some? ==> r.parsedDate == LastByText(stored, p.reminderText).value.date
  {
    match LastByText(stored, p.reminderText)
    case Some(existing) => p.(parsedDate := existing.date)
    case None => p
  }

  /** The `reminders` memo: the parsed reminders, each taking the date of
      the stored reminder with its text; with nothing stored, the parse
      itself. */
  function Merged(parsed: seq<UseNoteParser.HookReminder>, stored: seq<EditorReminder>): (r: seq<UseNoteParser.HookReminder>)
    ensures |r| == |parsed|
    ensures stored == [] ==> r == parsed
    ensures forall k :: 0 <= k < |r| ==> r[k] == MergeOne(parsed[k], stored)
  {
    if stored == [] then parsed
    else seq(|parsed|, k requires 0 <= k < |parsed| => MergeOne(parsed[k], stored))
  }

  /** Merging again with the same stored reminders changes nothing. */
  lemma MergedIdempotent(parsed: seq<UseNoteParser.HookReminder>, stored: seq<EditorReminder>)
    ensures Merged(Merged(parsed, stored), stored) == Merged(parsed, stored)
  {
    var once := Merged(parsed, stored);
    var twice := Merged(once, stored);
    forall k | 0 <= k < |parsed|
      ensures twice[k] == once[k]
    {
    }
  }

  /* ---------------------------------------------------------------------
     Save
     --------------------------------------------------------------------- */

  /** The fetched rows as editor reminders: `@text.` is taken for the
      original text. */
  function Fresh(rows: seq<FreshRow>): (r: seq<EditorReminder>)
    ensures |r| == |rows|
    ensures forall k :: 0 <= k < |r| ==>
              r[k] == EditorReminder(rows[k].id, rows[k].reminderText, rows[k].reminderTime, rows[k].completed,
                                     "@" + rows[k].reminderText + ".")
  {
    seq(|rows|, k requires 0 <= k < |rows| =>
      EditorReminder(rows[k].id, rows[k].reminderText, rows[k].reminderTime, rows[k].completed,
                     "@" + rows[k].reminderText + "."))
  }

  /** The parsed reminders with a date and a text, as new reminders of
      the note: no id yet and not done. A date object is always present,
      so only the text decides. */
  function Drafts(rs: seq<UseNoteParser.HookReminder>, noteId: string): (r: seq<SavedReminder>)
    ensures |r| <= |rs|
    ensures forall d :: d in r ==> d.id == "" && d.noteId == noteId && !d.completed && d.text != ""
  {
    if rs == [] then []
    else
      var p := rs[0];
      (if p.reminderText != "" then [SavedReminder("", noteId, p.reminderText, p.parsedDate, false, p.originalText)] else [])
      + Drafts(rs[1..], noteId)
  }

  /** Every draft is the reminder of a parsed reminder with a text, with
      its text, date and original text. */
  lemma {:induction false} DraftsFrom(rs: seq<UseNoteParser.HookReminder>, noteId: string)
    ensures forall d :: d in Drafts(rs, noteId) ==>
              exists p :: p in rs && p.reminderText != "" && d.text == p.reminderText
                          && d.date == p.parsedDate && d.originalText == p.originalText
  {
    if rs != [] {
      DraftsFrom(rs[1..], noteId);
      assert forall q :: q in rs[1..] ==> q in rs;
    }
  }

  /** When every parsed reminder has a text, there is one draft for each,
      in order. */
  lemma {:induction false} DraftsKeepAll(rs: seq<UseNoteParser.HookReminder>, noteId: string)
    requires forall p :: p in rs ==> p.reminderText != ""
    ensures |Drafts(rs, noteId)| == |rs|
    ensures forall k :: 0 <= k < |rs| ==>
              Drafts(rs, noteId)[k] == SavedReminder("", noteId, rs[k].reminderText, rs[k].parsedDate, false, rs[k].originalText)
  {
    if rs != [] {
      assert forall q :: q in rs[1..] ==> q in rs;
      DraftsKeepAll(rs[1..], noteId);
      var r := Drafts(rs, noteId);
      forall k | 0 < k < |rs|
        ensures r[k] == SavedReminder("", noteId, rs[k].reminderText, rs[k].parsedDate, false, rs[k].originalText)
      {
        assert rs[k] == rs[1..][k - 1];
      }
    }
  }

  /** A draft matched by text against the fetched reminders: a match
      gives its id, its done flag and its date; otherwise the draft stays
      new. */
  function Finalize(d: SavedReminder, latest: seq<EditorReminder>): (r: SavedReminder)
    ensures r.noteId == d.noteId && r.text == d.text && r.originalText == d.originalText
    ensures LastByText(latest, d.text).None? ==> r == d
    ensures LastByText(latest, d.text).Some? ==>
              var m := LastByText(latest, d.text).value;
              r.id == m.id && r.completed == m.completed && r.date == m.date
  {
    match LastByText(latest, d.text)
    case Some(m) => d.(id := m.id, completed := m.completed, date := m.date)
    case None => d
  }

  function Finalized(drafts: seq<SavedReminder>, latest: seq<EditorReminder>): (r: seq<SavedReminder>)
    ensures |r| == |drafts|
    ensures forall k :: 0 <= k < |r| ==> r[k] == Finalize(drafts[k], latest)
  {
    seq(|drafts|, k requires 0 <= k < |drafts| => Finalize(drafts[k], latest))
  }

  /** The saved reminders: new ones have no id and are not done; one
      whose text a fetched reminder has takes that reminder's id, done
      flag and date. Every saved reminder has a text. */
  lemma SavedRemindersFacts(rs: seq<UseNoteParser.HookReminder>, noteId: string, rows: seq<FreshRow>, s: SavedReminder)
    requires s in Finalized(Drafts(rs, noteId), Fresh(rows))
    ensures s.noteId == noteId && s.text != ""
    ensures LastByText(Fresh(rows), s.text).None? ==> s.id == "" && !s.completed
    ensures LastByText(Fresh(rows), s.text).Some? ==>
              var m := LastByText(Fresh(rows), s.text).value;
              s.id == m.id && s.completed == m.completed && s.date == m.date
  {
    var drafts := Drafts(rs, noteId);
    var k :| 0 <= k < |drafts| && Finalized(drafts, Fresh(rows))[k] == s;
    assert drafts[k] in drafts;
  }

  /** `tags.map((tag) => tag.text)`. */
  function TagNames(tags: seq<NoteParser.ParsedTag>): (r: seq<string>)
    ensures |r| == |tags| && forall k :: 0 <= k < |r| ==> r[k] == tags[k].text
  {
    seq(|tags|, k requires 0 <= k < |tags| => tags[k].text)
  }

  /** The saved tags are the tag texts of the content in order of
      appearance, repeats included. */
  lemma SavedTags(content: string)
    ensures TagNames(UseNoteParser.TagMatches(content, 0)) == NoteParser.TagTexts(content, 0)
  {
    UseNoteParser.TagMatchesFacts(content, 0);
  }

  /** `useNoteParser(content)` followed by the `reminders` memo. */
  method ParseContent(content: string, stored: seq<EditorReminder>, now: int)
    returns (tags: seq<string>, reminders: seq<UseNoteParser.HookReminder>)
    ensures tags == TagNames(UseNoteParser.TagMatches(content, 0))
    ensures reminders == Merged(UseNoteParser.Kept(NoteParser.ReminderMatches(content, 0, true), now), stored)
  {
    var parsedTags, parsedReminders := UseNoteParser.UseNoteParser(content, now);
    tags := TagNames(parsedTags);
    reminders := Merged(parsedReminders, stored);
  }

  /** The saved note: the note with the current title, content, tags,
      the finalized reminders and the save time. */
  function SavedOf(note: Note, title: string, content: string, tags: seq<string>,
                   reminders: seq<UseNoteParser.HookReminder>, rows: seq<FreshRow>, now: int): (r: SavedNote)
    ensures r.id == note.id && r.title == title && r.content == content && r.tags == tags && r.updatedAt == now
    ensures r.reminders == Finalized(Drafts(reminders, note.id), Fresh(rows))
  {
    SavedNote(note.id, title, content, tags, Finalized(Drafts(reminders, note.id), Fresh(rows)), now)
  }

  /** Every reminder the hook finds is saved: it has a reminder text. */
  lemma EveryParsedReminderSaved(content: string, stored: seq<EditorReminder>, noteId: string, now: int)
    ensures var rs := Merged(UseNoteParser.Kept(NoteParser.ReminderMatches(content, 0, true), now), stored);
            |Drafts(rs, noteId)| == |rs|
  {
    var parsed := UseNoteParser.Kept(NoteParser.ReminderMatches(content, 0, true), now);
    UseNoteParser.KeptFacts(NoteParser.ReminderMatches(content, 0, true), now);
    var rs := Merged(parsed, stored);
    forall p | p in rs
      ensures p.reminderText != ""
    {
      var k :| 0 <= k < |rs| && rs[k] == p;
      assert parsed[k] in parsed;
    }
    DraftsKeepAll(rs, noteId);
  }

  /** The editor's state: the note it shows, the two fields, whether
      they were edited, and whether the parent shows the editing form. */
  class NoteEditorPanel {
    var note: Note
    var title: string
    var content: string
    var isDirty: bool
    var isEditing: bool

    constructor(note: Note, isEditing: bool)
      ensures this.note == note && title == note.title && content == note.content && !isDirty
      ensures this.isEditing == isEditing
    {
      this.note := note;
      title := note.title;
      content := note.content;
      isDirty := false;
      this.isEditing := isEditing;
    }

    /** The effect run when another note is passed in. */
    method ShowNote(n: Note)
      modifies this
      ensures note == n && title == n.title && content == n.content && !isDirty
      ensures isEditing == old(isEditing)
    {
      note := n;
      title, content, isDirty := n.title, n.content, false;
    }

    method EditTitle(value: string)
      modifies this
      ensures title == value && isDirty
      ensures note == old(note) && content == old(content) && isEditing == old(isEditing)
    {
      title, isDirty := value, true;
    }

    method EditContent(value: string)
      modifies this
      ensures content == value && isDirty
      ensures note == old(note) && title == old(title) && isEditing == old(isEditing)
    {
      content, isDirty := value, true;
    }

    /** `handleSave`: `fetched` is the result of fetching the note's
        reminders again, `None` when the fetch fails, in which case
        nothing is saved and nothing changes. */
    method Save(fetched: Option<seq<FreshRow>>, now: int) returns (saved: Option<SavedNote>)
      modifies this
      ensures note == old(note) && title == old(title) && content == old(content)
      ensures fetched.None? ==> saved.None? && isDirty == old(isDirty) && isEditing == old(isEditing)
      ensures fetched.Some? ==>
                saved == Some(SavedOf(note, title, content, TagNames(UseNoteParser.TagMatches(content, 0)),
                                      Merged(UseNoteParser.Kept(NoteParser.ReminderMatches(content, 0, true), now), note.reminders),
                                      fetched.value, now))
                && !isDirty && !isEditing
    {
      if fetched.None? {
        return None;
      }
      var tags, reminders := ParseContent(content, note.reminders, now);
      saved := Some(SavedOf(note, title, content, tags, reminders, fetched.value, now));
      isDirty, isEditing := false, false;
    }

    /** `handleCancel`: the fields show the note again. */
    method Cancel()
      modifies this
      ensures note == old(note) && title == note.title && content == note.content
      ensures !isDirty && !isEditing
    {
      title, content := note.title, note.content;
      isDirty, isEditing := false, false;
    }
  }
}
