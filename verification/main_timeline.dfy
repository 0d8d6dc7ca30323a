/** The timeline of the main dashboard
    (src/components/features/dashboard/main/timelineView.tsx): one item per
    note (dated by its creation) and one per reminder (dated by the
    reminder's creation), filtered, newest first, with reminder totals
    taken over all reminders whatever the filter. */
module MainTimeline {
  import opened Common
  import opened Timeline
  import DataStore

  /** A reminder as the view receives it, with its note; `createdAt` is
      `None` when the date cannot be read. */
  datatype Reminder = Reminder(id: string, reminderText: string, createdAt: Option<int>, completed: bool,
                               noteId: string, noteTitle: string)

  /** The item of a note. */
  function NoteItem(n: DataStore.StoreNote): (r: Item)
    ensures r.id == "note-" + n.id && r.kind == NoteKind && r.noteId == n.id && r.title == n.title
    ensures r.date == Some(n.createdAt) && r.tags == Some(n.tags)
    ensures r.content == Some(StripTags(n.content))
  {
    Item("note-" + n.id, NoteKind, n.title, Some(n.createdAt), n.id, Some(StripTags(n.content)), Some(n.tags),
         None, None)
  }

  /** The item of a reminder. */
  function ReminderItem(r: Reminder): (item: Item)
    ensures item.id == "reminder-" + r.id && item.kind == ReminderKind && item.title == r.reminderText
    ensures item.date == r.createdAt && item.completed == Some(r.completed)
    ensures item.noteId == r.noteId && item.noteTitle == Some(r.noteTitle)
  {
    Item("reminder-" + r.id, ReminderKind, r.reminderText, r.createdAt, r.noteId, None, None,
         Some(r.completed), Some(r.noteTitle))
  }

  /** Every note's item, then every reminder's item. */
  function AllItems(notes: seq<DataStore.StoreNote>, reminders: seq<Reminder>): (r: seq<Item>)
    ensures |r| == |notes| + |reminders|
    ensures forall k :: 0 <= k < |notes| ==> r[k] == NoteItem(notes[k])
    ensures forall k :: 0 <= k < |reminders| ==> r[|notes| + k] == ReminderItem(reminders[k])
  {
    seq(|notes|, k requires 0 <= k < |notes| => NoteItem(notes[k]))
    + seq(|reminders|, k requires 0 <= k < |reminders| => ReminderItem(reminders[k]))
  }

  /** The items of each kind are exactly those built from the notes and
      from the reminders respectively. */
  lemma ItemsByKind(notes: seq<DataStore.StoreNote>, reminders: seq<Reminder>)
    ensures forall x :: x in AllItems(notes, reminders) && x.kind == NoteKind <==>
              exists n :: n in notes && x == NoteItem(n)
    ensures forall x :: x in AllItems(notes, reminders) && x.kind == ReminderKind <==>
              exists r :: r in reminders && x == ReminderItem(r)
  {
    var items := AllItems(notes, reminders);
    forall x | x in items
      ensures x.kind == NoteKind ==> exists n :: n in notes && x == NoteItem(n)
      ensures x.kind == ReminderKind ==> exists r :: r in reminders && x == ReminderItem(r)
    {
      var k :| 0 <= k < |items| && items[k] == x;
      if k < |notes| {
        assert notes[k] in notes;
      } else {
        assert reminders[k - |notes|] in reminders;
      }
    }
    forall n | n in notes ensures NoteItem(n) in items {
      var k :| 0 <= k < |notes| && notes[k] == n;
      assert items[k] == NoteItem(n);
    }
    forall r | r in reminders ensures ReminderItem(r) in items {
      var k :| 0 <= k < |reminders| && reminders[k] == r;
      assert items[|notes| + k] == ReminderItem(r);
    }
  }

  function IsCompleted(): Reminder -> bool {
    (r: Reminder) => r.completed
  }

  /** The memo of `timelineItems`, `totalReminders` and
      `completedReminders`: the two `forEach` loops build the items, which
      are then filtered and sorted; the counts ignore the filter. */
  method TimelineData(notes: seq<DataStore.StoreNote>, reminders: seq<Reminder>, filter: Show)
    returns (timelineItems: seq<Item>, totalReminders: nat, completedReminders: nat)
    ensures timelineItems == Arranged(AllItems(notes, reminders), filter)
    ensures totalReminders == |reminders|
    ensures completedReminders == |Filter(reminders, IsCompleted())| <= totalReminders
  {
    var items: seq<Item> := [];
    var i := 0;
    while i < |notes|
      invariant 0 <= i <= |notes|
      invariant items == seq(i, k requires 0 <= k < i => NoteItem(notes[k]))
    {
      items := items + [NoteItem(notes[i])];
      i := i + 1;
    }
    var j := 0;
    while j < |reminders|
      invariant 0 <= j <= |reminders|
      invariant |items| == |notes| + j
      invariant forall k :: 0 <= k < |notes| ==> items[k] == NoteItem(notes[k])
      invariant forall k :: 0 <= k < j ==> items[|notes| + k] == ReminderItem(reminders[k])
    {
      items := items + [ReminderItem(reminders[j])];
      j := j + 1;
    }
    assert items == AllItems(notes, reminders);
    timelineItems := Arranged(items, filter);
    completedReminders := |Filter(reminders, IsCompleted())|;
    totalReminders := |reminders|;
  }
}
