/** The note store (src/stores/dataStore.ts): rows fetched from the
    backend are turned into the notes the dashboard shows, each carrying
    the reminders whose `note_id` is its id, and the notes are kept newest
    first. The two backend queries are not part of this model; their
    answers are inputs. */
module DataStore {
  import opened Common
  import DashboardEditor

  /** A `reminders` row. */
  datatype ReminderRow = ReminderRow(id: string, noteId: string, reminderText: string,
                                     reminderTime: int, completed: bool)

  /** A `notes` row; `is_public` and `tags` may be missing. */
  datatype NoteRow = NoteRow(id: string, title: string, content: string, ownerId: string,
                             createdAt: int, updatedAt: int, isPublic: Option<bool>,
                             parentId: Option<string>, noteType: Option<string>,
                             tags: Option<seq<string>>)

  /** A note as the store holds it. */
  datatype StoreNote = StoreNote(id: string, title: string, content: string, ownerId: string,
                                 isPublic: bool, parentId: Option<string>, noteType: Option<string>,
                                 tags: seq<string>, createdAt: int, updatedAt: int,
                                 reminders: seq<DashboardEditor.EditorReminder>)

  /** `formatEditorReminder`: id, completion and time are copied, the text
      is the row's text and the original text is that text between `@` and
      `.`. */
  function FormatEditorReminder(row: ReminderRow): (r: DashboardEditor.EditorReminder)
    ensures r.id == row.id && r.completed == row.completed && r.date == row.reminderTime
    ensures r.text == row.reminderText
    ensures |r.originalText| == |r.text| + 2 && r.originalText[0] == '@'
    ensures r.originalText[|r.originalText| - 1] == '.'
    ensures r.originalText[1..|r.originalText| - 1] == r.text
  {
    var original := "@" + row.reminderText + ".";
    assert original[1..|original| - 1] == row.reminderText;
    DashboardEditor.EditorReminder(row.id, row.reminderText, row.reminderTime, row.completed, original)
  }

  function OfNote(noteId: string): ReminderRow -> bool {
    (r: ReminderRow) => r.noteId == noteId
  }

  /** `allReminders.filter(r => r.note_id === noteId).map(formatEditorReminder)`:
      one reminder per row of this note, in row order. */
  function RelatedReminders(all: seq<ReminderRow>, noteId: string): (r: seq<DashboardEditor.EditorReminder>)
    ensures |r| == |Filter(all, OfNote(noteId))| <= |all|
    ensures forall k :: 0 <= k < |r| ==> r[k] == FormatEditorReminder(Filter(all, OfNote(noteId))[k])
  {
    var rows := Filter(all, OfNote(noteId));
    seq(|rows|, k requires 0 <= k < |rows| => FormatEditorReminder(rows[k]))
  }

  /** Every row of this note gives a reminder of the note, and every
      reminder of the note comes from such a row. */
  lemma RelatedFromRows(all: seq<ReminderRow>, noteId: string)
    ensures forall row :: row in all && row.noteId == noteId ==> FormatEditorReminder(row) in RelatedReminders(all, noteId)
    ensures forall e :: e in RelatedReminders(all, noteId) ==>
              exists row :: row in all && row.noteId == noteId && e == FormatEditorReminder(row)
  {
    var rows := Filter(all, OfNote(noteId));
    var r := RelatedReminders(all, noteId);
    forall row | row in all && row.noteId == noteId ensures FormatEditorReminder(row) in r {
      assert row in rows;
      var k :| 0 <= k < |rows| && rows[k] == row;
      assert r[k] == FormatEditorReminder(row);
    }
    forall e | e in r ensures exists row :: row in all && row.noteId == noteId && e == FormatEditorReminder(row) {
      var k :| 0 <= k < |r| && r[k] == e;
      assert rows[k] in rows;
    }
  }

  /** The reminders of the rows `a` followed by those of the rows `b`:
      rows of other notes never reach a note. */
  lemma RelatedConcat(a: seq<ReminderRow>, b: seq<ReminderRow>, noteId: string)
    ensures RelatedReminders(a + b, noteId) == RelatedReminders(a, noteId) + RelatedReminders(b, noteId)
  {
    FilterConcat(a, b, OfNote(noteId));
  }

  /** Adding reminder rows of other notes changes no note's reminders. */
  lemma OtherRowsIrrelevant(all: seq<ReminderRow>, others: seq<ReminderRow>, noteId: string)
    requires forall row :: row in others ==> row.noteId != noteId
    ensures RelatedReminders(all + others, noteId) == RelatedReminders(all, noteId)
  {
    RelatedConcat(all, others, noteId);
    FilterNone(others, OfNote(noteId));
  }

  /** `formatNote`: the row's fields, `is_public` defaulting to false and
      `tags` to `[]`, and the reminders of this note. */
  function FormatNote(row: NoteRow, all: seq<ReminderRow>): (r: StoreNote)
    ensures r.id == row.id && r.title == row.title && r.content == row.content && r.ownerId == row.ownerId
    ensures r.createdAt == row.createdAt && r.updatedAt == row.updatedAt
    ensures r.isPublic == (row.isPublic == Some(true))
    ensures r.parentId == row.parentId && r.noteType == row.noteType
    ensures row.tags.None? ==> r.tags == []
    ensures row.tags.Some? ==> r.tags == row.tags.value
    ensures r.reminders == RelatedReminders(all, row.id)
  {
    StoreNote(row.id, row.title, row.content, row.ownerId,
              row.isPublic.Some? && row.isPublic.value, row.parentId, row.noteType,
              if row.tags.Some? then row.tags.value else [],
              row.createdAt, row.updatedAt, RelatedReminders(all, row.id))
  }

  /** `(a, b) => b.updatedAt - a.updatedAt`. */
  function Newest(): (StoreNote, StoreNote) -> bool {
    (a: StoreNote, b: StoreNote) => a.updatedAt >= b.updatedAt
  }

  lemma NewestTotal()
    ensures TotalPreorder(Newest())
  {
  }

  /** The notes `fetchInitialData` stores, before sorting. */
  function Formatted(rows: seq<NoteRow>, all: seq<ReminderRow>): (r: seq<StoreNote>)
    ensures |r| == |rows|
    ensures forall i :: 0 <= i < |rows| ==> r[i] == FormatNote(rows[i], all)
  {
    seq(|rows|, i requires 0 <= i < |rows| => FormatNote(rows[i], all))
  }

  /** The answer of one backend query: its rows (`null` reads as none) or
      an error, whose message may be missing. */
  datatype Response<T> = Rows(data: Option<seq<T>>) | Failed(message: Option<string>)

  const LoadFailed := "데이터 로드에 실패했습니다."

  function RowsOf<T>(resp: Response<T>): seq<T>
    requires resp.Rows?
  {
    if resp.data.Some? then resp.data.value else []
  }

  /** The error text `err.message || default`. */
  function ErrorText(message: Option<string>): (r: string)
    ensures message.Some? && message.value != [] ==> r == message.value
    ensures message.None? || message.value == [] ==> r == LoadFailed
  {
    if message.Some? && message.value != [] then message.value else LoadFailed
  }

  class NoteStore {
    var notes: seq<StoreNote>
    var isLoading: bool
    var error: Option<string>

    constructor()
      ensures notes == [] && !isLoading && error == None
    {
      notes := [];
      isLoading := false;
      error := None;
    }

    /** `fetchInitialData` with the two answers: a failed query (the notes
        query is checked first) records its message and keeps the notes;
        otherwise the formatted notes are stored newest first. */
    method FetchInitialData(notesResponse: Response<NoteRow>, remindersResponse: Response<ReminderRow>)
      modifies this
      ensures !isLoading
      ensures notesResponse.Failed? ==> error == Some(ErrorText(notesResponse.message)) && notes == old(notes)
      ensures notesResponse.Rows? && remindersResponse.Failed? ==>
                error == Some(ErrorText(remindersResponse.message)) && notes == old(notes)
      ensures notesResponse.Rows? && remindersResponse.Rows? ==>
                error == None
                && multiset(notes) == multiset(Formatted(RowsOf(notesResponse), RowsOf(remindersResponse)))
                && forall i, j :: 0 <= i < j < |notes| ==> notes[i].updatedAt >= notes[j].updatedAt
    {
      isLoading := true;
      error := None;
      if notesResponse.Failed? {
        error := Some(ErrorText(notesResponse.message));
        isLoading := false;
        return;
      }
      if remindersResponse.Failed? {
        error := Some(ErrorText(remindersResponse.message));
        isLoading := false;
        return;
      }
      var allReminders := RowsOf(remindersResponse);
      var formattedNotes := Formatted(RowsOf(notesResponse), allReminders);
      NewestTotal();
      notes := Sort(formattedNotes, Newest());
      isLoading := false;
    }
  }
}
