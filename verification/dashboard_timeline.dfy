/** The dashboard timeline (src/components/features/dashboard/timelineView.tsx):
    one pass over the notes builds an item for each note (dated by its last
    update) followed by an item for each of its reminders (dated by the
    reminder's time), while counting the reminders and the completed ones;
    the items are then filtered and sorted newest first. The items always
    carry a readable date here. */
module DashboardTimeline {
  import opened Common
  import opened Timeline
  import DataStore
  import DashboardEditor

  function NoteItem(n: DataStore.StoreNote): (r: Item)
    ensures r.id == "note-" + n.id && r.kind == NoteKind && r.noteId == n.id && r.title == n.title
    ensures r.date == Some(n.updatedAt) && r.tags == Some(n.tags)
    ensures r.content == Some(StripTags(n.content))
  {
    Item("note-" + n.id, NoteKind, n.title, Some(n.updatedAt), n.id, Some(StripTags(n.content)), Some(n.tags),
         None, None)
  }

  function ReminderItem(n: DataStore.StoreNote, r: DashboardEditor.EditorReminder): (item: Item)
    ensures item.id == "reminder-" + r.id && item.kind == ReminderKind && item.title == r.text
    ensures item.date == Some(r.date) && item.completed == Some(r.completed)
    ensures item.noteId == n.id && item.noteTitle == Some(n.title)
  {
    Item("reminder-" + r.id, ReminderKind, r.text, Some(r.date), n.id, None, None, Some(r.completed),
         Some(n.title))
  }

  /** The items of reminders `rs` of the note `n`. */
  function ReminderItems(n: DataStore.StoreNote, rs: seq<DashboardEditor.EditorReminder>): (r: seq<Item>)
    ensures |r| == |rs| && forall k {:trigger r[k]} :: 0 <= k < |rs| ==> r[k] == ReminderItem(n, rs[k])
  {
    seq(|rs|, k requires 0 <= k < |rs| => ReminderItem(n, rs[k]))
  }

  /** The note's item followed by its reminders' items. */
  function ItemsOf(n: DataStore.StoreNote): (r: seq<Item>)
    ensures |r| == 1 + |n.reminders| && r[0] == NoteItem(n)
    ensures forall k :: 0 <= k < |n.reminders| ==> r[1 + k] == ReminderItem(n, n.reminders[k])
  {
    [NoteItem(n)] + ReminderItems(n, n.reminders)
  }

  function Items(notes: seq<DataStore.StoreNote>): seq<Item> {
    if notes == [] then [] else Items(notes[..|notes| - 1]) + ItemsOf(notes[|notes| - 1])
  }

  function Done(): DashboardEditor.EditorReminder -> bool {
    (r: DashboardEditor.EditorReminder) => r.completed
  }

  function CompletedOf(n: DataStore.StoreNote): nat {
    |Filter(n.reminders, Done())|
  }

  /** The number of reminders over all notes. */
  function ReminderTotal(notes: seq<DataStore.StoreNote>): nat {
    if notes == [] then 0 else ReminderTotal(notes[..|notes| - 1]) + |notes[|notes| - 1].reminders|
  }

  /** The number of completed reminders over all notes. */
  function CompletedTotal(notes: seq<DataStore.StoreNote>): (r: nat)
    ensures r <= ReminderTotal(notes)
  {
    if notes == [] then 0 else CompletedTotal(notes[..|notes| - 1]) + CompletedOf(notes[|notes| - 1])
  }

  /** Every item is dated, so every item lands in exactly one day group. */
  lemma {:induction false} ItemsDated(notes: seq<DataStore.StoreNote>)
    ensures forall x :: x in Items(notes) ==> x.date.Some?
  {
    if notes != [] {
      ItemsDated(notes[..|notes| - 1]);
    }
  }

  /** The reminder total is the number of reminder items, and there is
      one note item per note. */
  lemma {:induction false} TotalCountsReminderItems(notes: seq<DataStore.StoreNote>)
    ensures |Filter(Items(notes), ShownBy(Reminders))| == ReminderTotal(notes)
    ensures |Filter(Items(notes), ShownBy(Notes))| == |notes|
  {
    if notes != [] {
      var n := notes[|notes| - 1];
      TotalCountsReminderItems(notes[..|notes| - 1]);
      FilterConcat(Items(notes[..|notes| - 1]), ItemsOf(n), ShownBy(Reminders));
      FilterConcat(Items(notes[..|notes| - 1]), ItemsOf(n), ShownBy(Notes));
      var tail := ItemsOf(n)[1..];
      assert ItemsOf(n) == [NoteItem(n)] + tail;
      FilterConcat([NoteItem(n)], tail, ShownBy(Reminders));
      FilterConcat([NoteItem(n)], tail, ShownBy(Notes));
      FilterKeepsAll(tail, ShownBy(Reminders));
      FilterNone(tail, ShownBy(Notes));
    }
  }

  /** The memo of `timelineItems`, `totalReminders` and
      `completedReminders`. */
  method TimelineData(notes: seq<DataStore.StoreNote>, filter: Show)
    returns (timelineItems: seq<Item>, totalReminders: nat, completedReminders: nat)
    ensures timelineItems == Arranged(Items(notes), filter)
    ensures totalReminders == ReminderTotal(notes)
    ensures completedReminders == CompletedTotal(notes) <= totalReminders
  {
    var items: seq<Item> := [];
    var reminderCount, completedCount := 0, 0;
    var i := 0;
    while i < |notes|
      invariant 0 <= i <= |notes|
      invariant items == Items(notes[..i])
      invariant reminderCount == ReminderTotal(notes[..i])
      invariant completedCount == CompletedTotal(notes[..i])
    {
      var note := notes[i];
      NoteStep(notes, i);
      items, reminderCount, completedCount := AddNote(items, reminderCount, completedCount, note);
      i := i + 1;
    }
    assert notes[..|notes|] == notes;
    timelineItems := Arranged(items, filter);
    totalReminders, completedReminders := reminderCount, completedCount;
  }

  /** One pass of the outer `forEach`: the note's items and counts join
      those of the notes before it. */
  lemma NoteStep(notes: seq<DataStore.StoreNote>, i: nat)
    requires i < |notes|
    ensures Items(notes[..i + 1]) == Items(notes[..i]) + ItemsOf(notes[i])
    ensures ReminderTotal(notes[..i + 1]) == ReminderTotal(notes[..i]) + |notes[i].reminders|
    ensures CompletedTotal(notes[..i + 1]) == CompletedTotal(notes[..i]) + CompletedOf(notes[i])
  {
    assert notes[..i + 1][..i] == notes[..i];
  }

  /** One step of the inner `forEach`: the reminder's item is appended and
      the completed count grows by one exactly when it is completed. */
  lemma ReminderStep(head: seq<Item>, n: DataStore.StoreNote, rs: seq<DashboardEditor.EditorReminder>, j: nat)
    requires j < |rs|
    ensures head + ReminderItems(n, rs[..j + 1]) == (head + ReminderItems(n, rs[..j])) + [ReminderItem(n, rs[j])]
    ensures |Filter(rs[..j + 1], Done())| == |Filter(rs[..j], Done())| + (if rs[j].completed then 1 else 0)
  {
    assert rs[..j + 1] == rs[..j] + [rs[j]];
    assert ReminderItems(n, rs[..j + 1]) == ReminderItems(n, rs[..j]) + [ReminderItem(n, rs[j])];
    FilterSnoc(rs[..j], rs[j], Done());
  }

  /** The body of the outer `forEach` for one note: its item, then the
      inner `forEach` over its reminders. */
  method AddNote(items: seq<Item>, reminderCount: nat, completedCount: nat, note: DataStore.StoreNote)
    returns (items': seq<Item>, reminderCount': nat, completedCount': nat)
    ensures items' == items + ItemsOf(note)
    ensures reminderCount' == reminderCount + |note.reminders|
    ensures completedCount' == completedCount + CompletedOf(note)
  {
    items', reminderCount', completedCount' :=
      AddReminders(items + [NoteItem(note)], reminderCount, completedCount, note);
    NoteThenReminders(items, note);
  }

  /** The note's item and then its reminders' items are the note's items. */
  lemma NoteThenReminders(items: seq<Item>, n: DataStore.StoreNote)
    ensures (items + [NoteItem(n)]) + ReminderItems(n, n.reminders) == items + ItemsOf(n)
  {
    assert ItemsOf(n) == [NoteItem(n)] + ReminderItems(n, n.reminders);
  }

  /** The inner `forEach`: one item per reminder of the note, counting the
      reminders and the completed ones. */
  method AddReminders(items: seq<Item>, reminderCount: nat, completedCount: nat, note: DataStore.StoreNote)
    returns (items': seq<Item>, reminderCount': nat, completedCount': nat)
    ensures items' == items + ReminderItems(note, note.reminders)
    ensures reminderCount' == reminderCount + |note.reminders|
    ensures completedCount' == completedCount + CompletedOf(note)
  {
    items', reminderCount', completedCount' := items, reminderCount, completedCount;
    var rs := note.reminders;
    var j := 0;
    assert rs[..0] == [];
    while j < |rs|
      invariant 0 <= j <= |rs|
      invariant items' == items + ReminderItems(note, rs[..j])
      invariant reminderCount' == reminderCount + j
      invariant completedCount' == completedCount + |Filter(rs[..j], Done())|
    {
      var reminder := rs[j];
      ReminderStep(items, note, rs, j);
      items' := items' + [ReminderItem(note, reminder)];
      reminderCount' := reminderCount' + 1;
      if reminder.completed {
        completedCount' := completedCount' + 1;
      }
      j := j + 1;
    }
    assert rs[..|rs|] == rs;
  }
}
