/** The dashboard page (src/pages/dashboard/index.tsx): the flattened list
    of every note's reminders, the reminder deletion that rewrites the
    owning note, the tag filter of the note list, the selection that is
    dropped when its note disappears, the keyboard shortcuts with their tab
    cycle, and the sidebar's most used tags. Calls into the notes hook, the
    router and the theme store are recorded as requests. */
module DashboardPage {
  import opened Common
  import ThemeStore
  import PageShortcuts

  /** A reminder as the page reads it off a note (every field is optional
      at run time): `text` or `reminder_text`, `date` or `reminder_time`. */
  datatype NoteReminder = NoteReminder(id: string, text: Option<string>, reminderText: Option<string>,
                                       date: Stamp, reminderTime: Stamp, completed: bool,
                                       enabled: Option<bool>, createdAt: Option<string>,
                                       updatedAt: Option<string>, originalText: Option<string>)

  datatype Note = Note(id: string, title: string, content: Option<string>, ownerId: string,
                       tags: Option<seq<string>>, reminders: Option<seq<NoteReminder>>)

  /** An entry of `allReminders`; `reminderTime` is the instant that
      `toISOString` writes out. */
  datatype FlatReminder = FlatReminder(id: string, noteId: string, ownerId: string,
                                       reminderText: Option<string>, reminderTime: int,
                                       completed: bool, enabled: bool, createdAt: string,
                                       updatedAt: string, originalText: Option<string>,
                                       noteTitle: string, noteContent: string)

  /** `x || []`. */
  function OrEmpty<T>(o: Option<seq<T>>): seq<T> {
    if o.Some? then o.value else []
  }

  /** `a || b` on optional strings: an empty string is falsy. */
  function Either(a: Option<string>, b: Option<string>): (r: Option<string>)
    ensures a.Some? && a.value != [] ==> r == a
    ensures a.None? || a.value == [] ==> r == b
  {
    if a.Some? && a.value != [] then a else b
  }

  /** `x || fallback` on an optional string. */
  function OrElse(a: Option<string>, fallback: string): (r: string)
    ensures a.Some? && a.value != [] ==> r == a.value
    ensures a.None? || a.value == [] ==> r == fallback
  {
    if a.Some? && a.value != [] then a.value else fallback
  }

  /** `(date ? new Date(date) : new Date(reminder_time)).toISOString()`:
      `None` where `toISOString` throws on an invalid date. */
  function ReminderTime(r: NoteReminder): (t: Option<int>)
    ensures r.date.At? ==> t == Some(r.date.ms)
    ensures r.date.Unreadable? ==> t.None?
    ensures r.date.Absent? ==> (t.Some? <==> r.reminderTime.At?)
  {
    var chosen := if r.date.Absent? then r.reminderTime else r.date;
    if chosen.At? then Some(chosen.ms) else None
  }

  /** `content?.replace(/<[^>]*>/g, '').substring(0, 100) || ''`. */
  function NoteContent(content: Option<string>): (r: string)
    ensures |r| <= 100
    ensures content.None? ==> r == []
    ensures content.Some? ==> |r| == if |StripTags(content.value)| < 100 then |StripTags(content.value)| else 100
    ensures content.Some? ==> r == StripTags(content.value)[..|r|]
  {
    if content.None? then []
    else
      var stripped := StripTags(content.value);
      if |stripped| <= 100 then stripped else stripped[..100]
  }

  /** The entry `allReminders` makes of reminder `r` of note `n`, with
      `nowIso` standing for `new Date().toISOString()`. */
  function Flatten(n: Note, r: NoteReminder, nowIso: string): (f: Option<FlatReminder>)
    ensures f.None? <==> ReminderTime(r).None?
    ensures f.Some? ==>
              f.value.id == r.id && f.value.noteId == n.id && f.value.ownerId == n.ownerId
              && f.value.noteTitle == n.title && f.value.completed == r.completed
              && f.value.enabled == (r.enabled != Some(false))
              && f.value.reminderText == Either(r.text, r.reminderText)
              && f.value.reminderTime == ReminderTime(r).value
              && f.value.createdAt == OrElse(r.createdAt, nowIso)
              && f.value.updatedAt == OrElse(r.updatedAt, nowIso)
              && f.value.noteContent == NoteContent(n.content)
  {
    match ReminderTime(r)
    case None => None
    case Some(t) =>
      Some(FlatReminder(r.id, n.id, n.ownerId, Either(r.text, r.reminderText), t, r.completed,
                        if r.enabled.Some? then r.enabled.value else true,
                        OrElse(r.createdAt, nowIso), OrElse(r.updatedAt, nowIso), r.originalText,
                        n.title, NoteContent(n.content)))
  }

  /** Every reminder has a time `toISOString` can write out. */
  predicate AllTimed(rs: seq<NoteReminder>) {
    forall k :: 0 <= k < |rs| ==> ReminderTime(rs[k]).Some?
  }

  /** The entries of one note, in reminder order; `None` when one of them
      throws. */
  function NoteEntries(n: Note, rs: seq<NoteReminder>, nowIso: string): (r: Option<seq<FlatReminder>>)
    ensures r.Some? <==> AllTimed(rs)
    ensures r.Some? ==> |r.value| == |rs|
                        && forall k :: 0 <= k < |rs| ==> Some(r.value[k]) == Flatten(n, rs[k], nowIso)
  {
    if rs == [] then Some([])
    else
      var init := rs[..|rs| - 1];
      var last := Flatten(n, rs[|rs| - 1], nowIso);
      var front := NoteEntries(n, init, nowIso);
      assert AllTimed(rs) <==> AllTimed(init) && ReminderTime(rs[|rs| - 1]).Some? by {
        if AllTimed(init) && ReminderTime(rs[|rs| - 1]).Some? {
          forall k | 0 <= k < |rs| ensures ReminderTime(rs[k]).Some? {
            if k < |init| { assert rs[k] == init[k]; }
          }
        }
        if AllTimed(rs) {
          forall k | 0 <= k < |init| ensures ReminderTime(init[k]).Some? {
            assert rs[k] == init[k];
          }
        }
      }
      if front.None? || last.None? then None
      else Some(front.value + [last.value])
  }

  /** `allReminders`: the entries of every note in note order; `None` when
      the memo throws. */
  function AllReminders(notes: seq<Note>, nowIso: string): (r: Option<seq<FlatReminder>>)
    ensures r.Some? <==> forall i :: 0 <= i < |notes| ==> AllTimed(OrEmpty(notes[i].reminders))
  {
    if notes == [] then Some([])
    else
      var init := notes[..|notes| - 1];
      var front := AllReminders(init, nowIso);
      var last := NoteEntries(notes[|notes| - 1], OrEmpty(notes[|notes| - 1].reminders), nowIso);
      assert (forall i :: 0 <= i < |notes| ==> AllTimed(OrEmpty(notes[i].reminders)))
             <==> (forall i :: 0 <= i < |init| ==> AllTimed(OrEmpty(init[i].reminders)))
                  && AllTimed(OrEmpty(notes[|notes| - 1].reminders)) by {
        forall i | 0 <= i < |init| ensures init[i] == notes[i] { }
      }
      if front.None? || last.None? then None
      else Some(front.value + last.value)
  }

  /** The number of reminders over all notes, a missing list counting as
      none. */
  function ReminderCount(notes: seq<Note>): nat {
    if notes == [] then 0 else ReminderCount(notes[..|notes| - 1]) + |OrEmpty(notes[|notes| - 1].reminders)|
  }

  /** One entry per reminder: the flattened list is as long as all
      reminder lists together, and every entry comes from some reminder of
      some note, carrying that note's id and title. */
  lemma {:induction false} AllRemindersShape(notes: seq<Note>, nowIso: string)
    requires AllReminders(notes, nowIso).Some?
    ensures |AllReminders(notes, nowIso).value| == ReminderCount(notes)
    ensures forall f :: f in AllReminders(notes, nowIso).value ==>
              exists i, k :: 0 <= i < |notes| && 0 <= k < |OrEmpty(notes[i].reminders)|
                && Some(f) == Flatten(notes[i], OrEmpty(notes[i].reminders)[k], nowIso)
                && f.noteId == notes[i].id && f.noteTitle == notes[i].title
  {
    if notes != [] {
      var init := notes[..|notes| - 1];
      var n := notes[|notes| - 1];
      AllRemindersShape(init, nowIso);
      var front := AllReminders(init, nowIso).value;
      var last := NoteEntries(n, OrEmpty(n.reminders), nowIso).value;
      assert AllReminders(notes, nowIso).value == front + last;
      forall f | f in front + last
        ensures exists i, k :: 0 <= i < |notes| && 0 <= k < |OrEmpty(notes[i].reminders)|
                  && Some(f) == Flatten(notes[i], OrEmpty(notes[i].reminders)[k], nowIso)
                  && f.noteId == notes[i].id && f.noteTitle == notes[i].title
      {
        if f in front {
          var i, k :| 0 <= i < |init| && 0 <= k < |OrEmpty(init[i].reminders)|
                      && Some(f) == Flatten(init[i], OrEmpty(init[i].reminders)[k], nowIso)
                      && f.noteId == init[i].id && f.noteTitle == init[i].title;
          assert init[i] == notes[i];
        } else {
          var k :| 0 <= k < |last| && last[k] == f;
          assert notes[|notes| - 1] == n;
        }
      }
    }
  }

  /** Whether note `n` holds a reminder with id `reminderId`. */
  function Owns(reminderId: string): Note -> bool {
    (n: Note) => exists k :: 0 <= k < |OrEmpty(n.reminders)| && OrEmpty(n.reminders)[k].id == reminderId
  }

  function OtherReminder(reminderId: string): NoteReminder -> bool {
    (r: NoteReminder) => r.id != reminderId
  }

  /** The note `handleDeleteReminder(reminderId)` hands to `updateNote`:
      the first note owning the reminder, with that reminder filtered out;
      `None` when no note owns it and nothing is sent. */
  function DeleteReminder(notes: seq<Note>, reminderId: string): (r: Option<Note>)
    ensures r.None? <==> forall i :: 0 <= i < |notes| ==> !Owns(reminderId)(notes[i])
    ensures r.Some? ==>
              exists i :: 0 <= i < |notes| && Owns(reminderId)(notes[i])
                && (forall j :: 0 <= j < i ==> !Owns(reminderId)(notes[j]))
                && r.value == notes[i].(reminders := Some(Filter(OrEmpty(notes[i].reminders), OtherReminder(reminderId))))
    ensures r.Some? ==> forall x :: x in OrEmpty(r.value.reminders) ==> x.id != reminderId
  {
    match FindIndex(notes, Owns(reminderId))
    case None => None
    case Some(i) =>
      var target := notes[i];
      Some(target.(reminders := Some(Filter(OrEmpty(target.reminders), OtherReminder(reminderId)))))
  }

  /** Deleting a reminder keeps every other reminder of the owning note, in
      order, and removes at least one. */
  lemma DeleteReminderKeepsOthers(notes: seq<Note>, reminderId: string)
    requires DeleteReminder(notes, reminderId).Some?
    ensures var n := DeleteReminder(notes, reminderId).value;
            var i := FindIndex(notes, Owns(reminderId)).value;
            n.id == notes[i].id
            && IsSubseq(OrEmpty(n.reminders), OrEmpty(notes[i].reminders))
            && |OrEmpty(n.reminders)| < |OrEmpty(notes[i].reminders)|
            && forall x :: x in OrEmpty(notes[i].reminders) && x.id != reminderId ==> x in OrEmpty(n.reminders)
  {
    var i := FindIndex(notes, Owns(reminderId)).value;
    var rs := OrEmpty(notes[i].reminders);
    FilterSubseq(rs, OtherReminder(reminderId));
    var k :| 0 <= k < |rs| && rs[k].id == reminderId;
    FilterDropsOne(rs, OtherReminder(reminderId), k);
  }

  /** A filter that rejects some element is strictly shorter. */
  lemma {:induction false} FilterDropsOne(s: seq<NoteReminder>, p: NoteReminder -> bool, k: nat)
    requires k < |s| && !p(s[k])
    ensures |Filter(s, p)| < |s|
  {
    if k > 0 {
      FilterDropsOne(s[1..], p, k - 1);
    }
  }

  function HasTag(tag: string): Note -> bool {
    (n: Note) => tag in OrEmpty(n.tags)
  }

  /** `filteredNotes`: every note when no tag (or the empty tag, which is
      falsy) is selected, else the notes carrying exactly that tag. */
  function FilteredNotes(notes: seq<Note>, selectedTag: Option<string>): (r: seq<Note>)
    ensures selectedTag.None? || selectedTag.value == [] ==> r == notes
    ensures selectedTag.Some? && selectedTag.value != [] ==>
              forall n :: n in r <==> n in notes && selectedTag.value in OrEmpty(n.tags)
    ensures IsSubseq(r, notes)
  {
    if selectedTag.Some? && selectedTag.value != [] then
      FilterSubseq(notes, HasTag(selectedTag.value));
      Filter(notes, HasTag(selectedTag.value))
    else
      SubseqRefl(notes);
      notes
  }

  /** The tags of every note in note order, repeats included. */
  function TagList(notes: seq<Note>): seq<string> {
    if notes == [] then [] else TagList(notes[..|notes| - 1]) + OrEmpty(notes[|notes| - 1].tags)
  }

  datatype TagCount = TagCount(tag: string, count: nat)

  /** The sort of `popularTags`: a larger count first. */
  function MoreUsed(): (TagCount, TagCount) -> bool {
    (a: TagCount, b: TagCount) => a.count >= b.count
  }

  lemma MoreUsedTotal()
    ensures TotalPreorder(MoreUsed())
  {
  }

  /** The counts and insertion order `popularTags` builds over the tags
      `seen`. */
  ghost predicate Counted(tagCount: map<string, nat>, keys: seq<string>, seen: seq<string>) {
    keys == Dedupe(seen) && SameKeys(tagCount, keys) && CountsOf(tagCount, seen)
  }

  /** The counted tags are the keys. */
  ghost predicate SameKeys(tagCount: map<string, nat>, keys: seq<string>) {
    forall t :: t in tagCount <==> t in keys
  }

  /** Each counted tag holds its number of uses in `seen`. */
  ghost predicate CountsOf(tagCount: map<string, nat>, seen: seq<string>) {
    forall t :: t in tagCount ==> tagCount[t] == multiset(seen)[t]
  }

  /** Counting one more tag. */
  lemma CountStep(tagCount: map<string, nat>, keys: seq<string>, seen: seq<string>, tag: string)
    requires Counted(tagCount, keys, seen)
    ensures Counted(tagCount[tag := (if tag in tagCount then tagCount[tag] else 0) + 1],
                    if tag in keys then keys else keys + [tag], seen + [tag])
  {
    KeysStep(keys, seen, tag);
    CountKeysStep(tagCount, keys, tag);
    assert tag !in tagCount ==> multiset(seen)[tag] == 0;
    CountValuesStep(tagCount, seen, tag);
  }

  /** A new key goes to the end of the insertion order. */
  lemma KeysStep(keys: seq<string>, seen: seq<string>, tag: string)
    requires keys == Dedupe(seen)
    ensures (if tag in keys then keys else keys + [tag]) == Dedupe(seen + [tag])
  {
    DedupeSnoc(seen, tag);
  }

  /** The counted tags stay the keys. */
  lemma CountKeysStep(tagCount: map<string, nat>, keys: seq<string>, tag: string)
    requires SameKeys(tagCount, keys)
    ensures SameKeys(tagCount[tag := (if tag in tagCount then tagCount[tag] else 0) + 1],
                     if tag in keys then keys else keys + [tag])
  {
  }

  /** The counted tag gains one use, the others keep theirs. */
  lemma CountValuesStep(tagCount: map<string, nat>, seen: seq<string>, tag: string)
    requires CountsOf(tagCount, seen)
    requires tag !in tagCount ==> multiset(seen)[tag] == 0
    ensures CountsOf(tagCount[tag := (if tag in tagCount then tagCount[tag] else 0) + 1], seen + [tag])
  {
    assert multiset(seen + [tag]) == multiset(seen) + multiset{tag};
  }

  /** `tagCount[tag] = (tagCount[tag] || 0) + 1` for every tag of one note,
      a new key going to the end of the insertion order. */
  method CountEach(tagCount: map<string, nat>, keys: seq<string>, tags: seq<string>, ghost seen: seq<string>)
    returns (tagCount': map<string, nat>, keys': seq<string>)
    requires Counted(tagCount, keys, seen)
    ensures Counted(tagCount', keys', seen + tags)
  {
    tagCount', keys' := tagCount, keys;
    if tags == [] {
      assert seen + tags == seen;
      return;
    }
    var j := 0;
    AppendSlice(seen, tags, 0);
    while j < |tags|
      invariant 0 <= j <= |tags|
      invariant Counted(tagCount', keys', seen + tags[..j])
    {
      var tag := tags[j];
      AppendSlice(seen, tags, j);
      CountStep(tagCount', keys', seen + tags[..j], tag);
      tagCount', keys' := tagCount'[tag := (if tag in tagCount' then tagCount'[tag] else 0) + 1],
                          if tag in keys' then keys' else keys' + [tag];
      j := j + 1;
    }
  }

  /** The counting loop of `popularTags`, note by note. */
  method CountTags(notes: seq<Note>) returns (tagCount: map<string, nat>, keys: seq<string>)
    ensures keys == Dedupe(TagList(notes))
    ensures forall t :: t in tagCount <==> t in keys
    ensures forall t :: t in tagCount ==> tagCount[t] == multiset(TagList(notes))[t]
  {
    tagCount, keys := map[], [];
    var i := 0;
    while i < |notes|
      invariant 0 <= i <= |notes|
      invariant Counted(tagCount, keys, TagList(notes[..i]))
    {
      assert notes[..i + 1][..i] == notes[..i];
      tagCount, keys := CountEach(tagCount, keys, OrEmpty(notes[i].tags), TagList(notes[..i]));
      i := i + 1;
    }
    assert notes[..|notes|] == notes;
  }

  /** `popularTags`: the per-tag counts sorted by count, at most five. */
  method PopularTags(notes: seq<Note>) returns (popular: seq<TagCount>)
    ensures |popular| == if |Dedupe(TagList(notes))| < 5 then |Dedupe(TagList(notes))| else 5
    ensures Sorted(popular, MoreUsed())
    ensures forall e :: e in popular ==> e.tag in TagList(notes) && e.count == multiset(TagList(notes))[e.tag]
    ensures forall i, j :: 0 <= i < j < |popular| ==> popular[i].tag != popular[j].tag
    ensures forall t, e :: t in TagList(notes) && e in popular && (forall f :: f in popular ==> f.tag != t) ==>
              multiset(TagList(notes))[t] <= e.count
  {
    var tagCount, keys := CountTags(notes);
    var entries := seq(|keys|, k requires 0 <= k < |keys| => TagCount(keys[k], tagCount[keys[k]]));
    MoreUsedTotal();
    var sorted := Sort(entries, MoreUsed());
    popular := if |sorted| <= 5 then sorted else sorted[..5];
    PopularFacts(TagList(notes), keys, entries, sorted, popular);
  }

  /** What sorting and cutting the entries guarantees. */
  lemma PopularFacts(all: seq<string>, keys: seq<string>, entries: seq<TagCount>, sorted: seq<TagCount>,
                     popular: seq<TagCount>)
    requires keys == Dedupe(all)
    requires |entries| == |keys|
    requires forall k :: 0 <= k < |keys| ==> entries[k] == TagCount(keys[k], multiset(all)[keys[k]])
    requires multiset(sorted) == multiset(entries) && Sorted(sorted, MoreUsed())
    requires popular == if |sorted| <= 5 then sorted else sorted[..5]
    ensures forall e :: e in popular ==> e.tag in all && e.count == multiset(all)[e.tag]
    ensures forall i, j :: 0 <= i < j < |popular| ==> popular[i].tag != popular[j].tag
    ensures forall t, e :: t in all && e in popular && (forall f :: f in popular ==> f.tag != t) ==>
              multiset(all)[t] <= e.count
  {
    SortedEntries(all, keys, entries, sorted);
    PopularCounts(all, keys, entries, sorted, popular);
    forall i, j | 0 <= i < j < |popular| ensures popular[i].tag != popular[j].tag {
      assert popular[i] == sorted[i] && popular[j] == sorted[j];
    }
    PopularTop(all, keys, entries, sorted, popular);
  }

  /** The sorted entries are the entries, and no two of them share a tag. */
  lemma SortedEntries(all: seq<string>, keys: seq<string>, entries: seq<TagCount>, sorted: seq<TagCount>)
    requires keys == Dedupe(all)
    requires |entries| == |keys|
    requires forall k :: 0 <= k < |keys| ==> entries[k] == TagCount(keys[k], multiset(all)[keys[k]])
    requires multiset(sorted) == multiset(entries)
    ensures |sorted| == |entries|
    ensures forall x :: x in sorted <==> x in entries
    ensures forall i, j :: 0 <= i < j < |sorted| ==> sorted[i].tag != sorted[j].tag
  {
    assert |sorted| == |entries| by {
      assert |multiset(sorted)| == |multiset(entries)|;
    }
    forall x ensures x in sorted <==> x in entries {
      assert x in sorted <==> x in multiset(sorted);
      assert x in entries <==> x in multiset(entries);
    }
    assert NoDups(keys);
    assert NoDups(entries) by {
      forall i, j | 0 <= i < j < |entries| ensures entries[i] != entries[j] {
        assert entries[i].tag == keys[i] && entries[j].tag == keys[j];
      }
    }
    MultisetNoDups(entries, sorted);
    forall i, j | 0 <= i < j < |sorted| ensures sorted[i].tag != sorted[j].tag {
      assert sorted[i] in entries && sorted[j] in entries;
      var a :| 0 <= a < |entries| && entries[a] == sorted[i];
      var b :| 0 <= b < |entries| && entries[b] == sorted[j];
      assert sorted[i] != sorted[j];
      assert a != b;
    }
  }

  /** Every kept entry holds a tag of the notes with its count. */
  lemma PopularCounts(all: seq<string>, keys: seq<string>, entries: seq<TagCount>, sorted: seq<TagCount>,
                      popular: seq<TagCount>)
    requires keys == Dedupe(all)
    requires |entries| == |keys|
    requires forall k :: 0 <= k < |keys| ==> entries[k] == TagCount(keys[k], multiset(all)[keys[k]])
    requires forall x :: x in sorted <==> x in entries
    requires popular == if |sorted| <= 5 then sorted else sorted[..5]
    ensures forall e :: e in popular ==> e.tag in all && e.count == multiset(all)[e.tag]
  {
    forall e | e in popular ensures e.tag in all && e.count == multiset(all)[e.tag] {
      assert e in sorted;
      var a :| 0 <= a < |entries| && entries[a] == e;
      assert keys[a] in all;
    }
  }

  /** A tag left out of the five has no more uses than any kept one. */
  lemma PopularTop(all: seq<string>, keys: seq<string>, entries: seq<TagCount>, sorted: seq<TagCount>,
                   popular: seq<TagCount>)
    requires keys == Dedupe(all)
    requires |entries| == |keys|
    requires forall k :: 0 <= k < |keys| ==> entries[k] == TagCount(keys[k], multiset(all)[keys[k]])
    requires forall x :: x in sorted <==> x in entries
    requires Sorted(sorted, MoreUsed())
    requires popular == if |sorted| <= 5 then sorted else sorted[..5]
    ensures forall t, e :: t in all && e in popular && (forall f :: f in popular ==> f.tag != t) ==>
              multiset(all)[t] <= e.count
  {
    forall t, e | t in all && e in popular && (forall f :: f in popular ==> f.tag != t)
      ensures multiset(all)[t] <= e.count
    {
      assert t in keys;
      var a :| 0 <= a < |keys| && keys[a] == t;
      assert entries[a] in sorted;
      var b :| 0 <= b < |sorted| && sorted[b] == entries[a];
      var c :| 0 <= c < |popular| && popular[c] == e;
      assert popular[c] == sorted[c];
      assert c < b;
    }
  }

  /** The page's tabs, in Tab order. */
  const ActiveTabs: seq<string> := ["notes", "reminder", "calendar", "timeline"]

  /** What the page asks of the hooks, the router and the editor. */
  datatype Request =
    | CreateNote
    | SaveEditor
    | SetTheme(theme: ThemeStore.Theme)
    | Navigate(path: string)
    | UpdateNote(note: Note)
    | DeleteNote(id: string)

  /** The page's own state. `isActiveTab` is the Tab counter, kept apart
      from `activeTab`, which the sidebar can also set. */
  class Dashboard {
    var notes: seq<Note>
    var activeTab: string
    var isActiveTab: nat
    var selectedNote: Option<Note>
    var selectedTag: Option<string>
    var isEditing: bool
    var isDeleteDialogOpen: bool
    var isSidebarVisible: bool
    var sent: seq<Request>

    /** The Tab counter always names one of the four tabs. */
    predicate Valid()
      reads this
    {
      isActiveTab < |ActiveTabs|
    }

    constructor(notes: seq<Note>)
      ensures this.notes == notes && activeTab == "notes" && isActiveTab == 0
      ensures selectedNote.None? && selectedTag.None? && !isEditing && !isDeleteDialogOpen
      ensures isSidebarVisible && sent == []
      ensures Valid()
    {
      this.notes := notes;
      activeTab := "notes";
      isActiveTab := 0;
      selectedNote := None;
      selectedTag := None;
      isEditing := false;
      isDeleteDialogOpen := false;
      isSidebarVisible := true;
      sent := [];
    }

    /** New notes from the hook, followed by the effect that drops a
        selection whose note is gone (and leaves edit mode). */
    method SetNotes(notes: seq<Note>)
      modifies this
      requires Valid()
      ensures Valid()
      ensures this.notes == notes
      ensures old(selectedNote).Some? && (forall n :: n in notes ==> n.id != old(selectedNote).value.id) ==>
                selectedNote.None? && !isEditing
      ensures old(selectedNote).None? || (exists n :: n in notes && n.id == old(selectedNote).value.id) ==>
                selectedNote == old(selectedNote) && isEditing == old(isEditing)
      ensures selectedNote.Some? ==> exists n :: n in notes && n.id == selectedNote.value.id
      ensures activeTab == old(activeTab) && isActiveTab == old(isActiveTab) && selectedTag == old(selectedTag)
      ensures isDeleteDialogOpen == old(isDeleteDialogOpen) && isSidebarVisible == old(isSidebarVisible)
      ensures sent == old(sent)
    {
      this.notes := notes;
      if selectedNote.Some? && !(exists n :: n in notes && n.id == selectedNote.value.id) {
        selectedNote := None;
        isEditing := false;
      }
    }

    /** `handleSelectNote`. */
    method SelectNote(note: Note)
      modifies this
      ensures selectedNote == Some(note) && !isEditing
      ensures notes == old(notes) && activeTab == old(activeTab) && isActiveTab == old(isActiveTab)
      ensures selectedTag == old(selectedTag) && isDeleteDialogOpen == old(isDeleteDialogOpen)
      ensures isSidebarVisible == old(isSidebarVisible) && sent == old(sent)
    {
      selectedNote := Some(note);
      isEditing := false;
    }

    /** A sidebar tag click: the notes tab with that tag selected. */
    method SelectTag(tag: string)
      modifies this
      ensures activeTab == "notes" && selectedTag == Some(tag)
      ensures notes == old(notes) && isActiveTab == old(isActiveTab) && selectedNote == old(selectedNote)
      ensures isEditing == old(isEditing) && isDeleteDialogOpen == old(isDeleteDialogOpen)
      ensures isSidebarVisible == old(isSidebarVisible) && sent == old(sent)
    {
      activeTab := "notes";
      selectedTag := Some(tag);
    }

    /** The clear button of the tag filter. */
    method ClearTag()
      modifies this
      ensures selectedTag.None?
      ensures notes == old(notes) && activeTab == old(activeTab) && isActiveTab == old(isActiveTab)
      ensures selectedNote == old(selectedNote) && isEditing == old(isEditing)
      ensures isDeleteDialogOpen == old(isDeleteDialogOpen) && isSidebarVisible == old(isSidebarVisible)
      ensures sent == old(sent)
    {
      selectedTag := None;
    }

    /** `handleConfirmDelete`: deletes the selected note and closes the
        dialog; nothing happens without a selection. */
    method ConfirmDelete()
      modifies this
      ensures old(selectedNote).None? ==> unchanged(this)
      ensures old(selectedNote).Some? ==>
                sent == old(sent) + [DeleteNote(old(selectedNote).value.id)] && !isDeleteDialogOpen
      ensures notes == old(notes) && activeTab == old(activeTab) && isActiveTab == old(isActiveTab)
      ensures selectedNote == old(selectedNote) && selectedTag == old(selectedTag)
      ensures isEditing == old(isEditing) && isSidebarVisible == old(isSidebarVisible)
    {
      if selectedNote.None? {
        return;
      }
      sent := sent + [DeleteNote(selectedNote.value.id)];
      isDeleteDialogOpen := false;
    }

    /** `handleDeleteReminder`: asks for the rewritten owning note, or
        does nothing when no note owns the reminder. */
    method HandleDeleteReminder(reminderId: string)
      modifies this
      ensures var r := DeleteReminder(notes, reminderId);
              sent == old(sent) + (if r.Some? then [UpdateNote(r.value)] else [])
      ensures notes == old(notes) && activeTab == old(activeTab) && isActiveTab == old(isActiveTab)
      ensures selectedNote == old(selectedNote) && selectedTag == old(selectedTag)
      ensures isEditing == old(isEditing) && isDeleteDialogOpen == old(isDeleteDialogOpen)
      ensures isSidebarVisible == old(isSidebarVisible)
    {
      var targetNote := DeleteReminder(notes, reminderId);
      if targetNote.None? {
        return;
      }
      sent := sent + [UpdateNote(targetNote.value)];
    }

    /** `handleKeyboardShortcuts`: in a text field only Tab and Ctrl/Cmd+S
        get through; Tab is matched exactly and every other key after
        lowering. `editorReady` says whether the editor has registered its
        save handle. */
    method HandleKey(key: string, isCtrlCmd: bool, inTextField: bool, editorReady: bool,
                     isDarkMode: bool, isDeepDarkMode: bool)
      modifies this
      requires Valid()
      ensures Valid()
      ensures var k := if key == "Tab" then "Tab" else Lower(key);
              var blocked := inTextField && !(isCtrlCmd && Lower(key) == "s") && key != "Tab";
              (blocked ==> unchanged(this))
              && (!blocked ==>
                    isActiveTab == (if k == "Tab" then (old(isActiveTab) + 1) % 4 else old(isActiveTab))
                    && activeTab == (if k == "Tab" then ActiveTabs[isActiveTab] else old(activeTab))
                    && isSidebarVisible == (if k == "b" then !old(isSidebarVisible) else old(isSidebarVisible))
                    && isDeleteDialogOpen == (if k == "d" || k == "delete" then old(isDeleteDialogOpen) || selectedNote.Some?
                                              else old(isDeleteDialogOpen)))
              && (!blocked && k == "n" ==> sent == old(sent) + [CreateNote])
              && (!blocked && k == "s" ==>
                    sent == old(sent) + (if isCtrlCmd && isEditing && editorReady then [SaveEditor] else []))
              && (!blocked && k == "t" ==>
                    sent == old(sent) + [SetTheme(PageShortcuts.ThemeToggle(isDarkMode, isDeepDarkMode))])
              && (!blocked && (k == "/" || k == "?") ==> sent == old(sent) + [Navigate("/dashboard/help?tab=overview")])
              && (!blocked && k == "m" ==> sent == old(sent) + [Navigate("/dashboard/myPage?tab=profile")])
              && (!blocked && k == "," ==> sent == old(sent) + [Navigate("/dashboard/myPage?tab=activity")])
              && (!blocked && k == "." ==> sent == old(sent) + [Navigate("/dashboard/myPage?tab=settings")])
              && (!blocked && k in {"Tab", "b", "d", "delete"} ==> sent == old(sent))
              && (!blocked && k !in {"Tab", "n", "s", "t", "b", "d", "delete", "/", "?", "m", ",", "."} ==>
                    unchanged(this))
      ensures notes == old(notes) && selectedNote == old(selectedNote) && selectedTag == old(selectedTag)
      ensures isEditing == old(isEditing)
    {
      if inTextField && !(isCtrlCmd && Lower(key) == "s") {
        if key != "Tab" {
          return;
        }
      }
      var k := if key == "Tab" then "Tab" else Lower(key);
      if k == "n" {
        sent := sent + [CreateNote];
      } else if k == "s" {
        if isCtrlCmd && isEditing && editorReady {
          sent := sent + [SaveEditor];
        }
      } else if k == "/" || k == "?" {
        sent := sent + [Navigate("/dashboard/help?tab=overview")];
      } else if k == "t" {
        sent := sent + [SetTheme(PageShortcuts.ThemeToggle(isDarkMode, isDeepDarkMode))];
      } else if k == "Tab" {
        var nextIndex := (isActiveTab + 1) % |ActiveTabs|;
        activeTab := ActiveTabs[nextIndex];
        isActiveTab := nextIndex;
      } else if k == "b" {
        isSidebarVisible := !isSidebarVisible;
      } else if k == "d" || k == "delete" {
        if selectedNote.Some? {
          isDeleteDialogOpen := true;
        }
      } else if k == "m" {
        sent := sent + [Navigate("/dashboard/myPage?tab=profile")];
      } else if k == "," {
        sent := sent + [Navigate("/dashboard/myPage?tab=activity")];
      } else if k == "." {
        sent := sent + [Navigate("/dashboard/myPage?tab=settings")];
      }
    }

    /** Four Tab presses outside a text field bring the Tab counter back and
        show the tab it names, whichever tab a click had shown meanwhile;
        nothing is sent. */
    method FourTabPresses(inTextField: bool, isDarkMode: bool, isDeepDarkMode: bool)
      modifies this
      requires Valid()
      ensures Valid()
      ensures isActiveTab == old(isActiveTab) && activeTab == ActiveTabs[old(isActiveTab)]
      ensures sent == old(sent) && isSidebarVisible == old(isSidebarVisible)
      ensures isDeleteDialogOpen == old(isDeleteDialogOpen) && notes == old(notes)
      ensures selectedNote == old(selectedNote) && isEditing == old(isEditing)
    {
      HandleKey("Tab", false, inTextField, false, isDarkMode, isDeepDarkMode);
      HandleKey("Tab", false, inTextField, false, isDarkMode, isDeepDarkMode);
      HandleKey("Tab", false, inTextField, false, isDarkMode, isDeepDarkMode);
      HandleKey("Tab", false, inTextField, false, isDarkMode, isDeepDarkMode);
    }
  }

}
