/** The `useNotes` hook (src/hooks/useNotes.ts): an in-memory list of notes
    that the hook replaces through `setNotes` on every add, update and
    delete, plus the read-only tag and date queries over it. Dates are
    millisecond timestamps; the clock reading that `updateNote` stamps is a
    parameter. */
module UseNotes {
  import opened Common

  /** A note as the hook stores it. The tags are an array of strings at run
      time (the hook calls `forEach` and `includes` on them). */
  datatype Note = Note(id: string, title: string, content: string, tags: seq<string>,
                       createdAt: int, updatedAt: int)

  /** The tags of every note, note by note, repeats included. */
  function AllTags(notes: seq<Note>): (r: seq<string>)
  {
    if notes == [] then [] else AllTags(notes[..|notes| - 1]) + notes[|notes| - 1].tags
  }

  lemma {:induction false} AllTagsMembership(notes: seq<Note>, t: string)
    ensures t in AllTags(notes) <==> exists i :: 0 <= i < |notes| && t in notes[i].tags
  {
    if notes != [] {
      var init := notes[..|notes| - 1];
      AllTagsMembership(init, t);
      if t in AllTags(notes) && t !in notes[|notes| - 1].tags {
        var i :| 0 <= i < |init| && t in init[i].tags;
        assert notes[i] == init[i];
      }
      if exists i :: 0 <= i < |notes| && t in notes[i].tags {
        var i :| 0 <= i < |notes| && t in notes[i].tags;
        if i < |init| {
          assert init[i] == notes[i];
        }
      }
    }
  }

  /** The note `updateNote(u)` puts in place of `n`. */
  function Replace(n: Note, u: Note, now: int): Note {
    if n.id == u.id then u.(updatedAt := now) else n
  }

  /** `prevNotes.map(note => note.id === u.id ? {...u, updatedAt: now} : note)`. */
  function Updated(notes: seq<Note>, u: Note, now: int): (r: seq<Note>)
    ensures |r| == |notes|
    ensures forall i :: 0 <= i < |notes| && notes[i].id != u.id ==> r[i] == notes[i]
    ensures forall i :: 0 <= i < |notes| && notes[i].id == u.id ==> r[i] == u.(updatedAt := now)
  {
    seq(|notes|, i requires 0 <= i < |notes| => Replace(notes[i], u, now))
  }

  /** The predicate of `deleteNote`'s filter. */
  function OtherThan(id: string): Note -> bool {
    (n: Note) => n.id != id
  }

  /** `prevNotes.filter(note => note.id !== id)`. */
  function Deleted(notes: seq<Note>, id: string): (r: seq<Note>)
    ensures forall n :: n in r <==> n in notes && n.id != id
    ensures IsSubseq(r, notes)
  {
    FilterSubseq(notes, OtherThan(id));
    Filter(notes, OtherThan(id))
  }

  /** The predicate of `getNotesByTag`'s filter. */
  function Tagged(tag: string): Note -> bool {
    (n: Note) => tag in n.tags
  }

  /** The predicate of `getNotesByDate`'s filter: same year, month and day
      of the month in local time, that is, the same local day. */
  function SameDay(date: int): Note -> bool {
    (n: Note) => DayOf(n.createdAt) == DayOf(date)
  }

  /** Updating never changes which ids are present, or where. */
  lemma UpdateKeepsIds(notes: seq<Note>, u: Note, now: int)
    ensures forall i :: 0 <= i < |notes| ==> Updated(notes, u, now)[i].id == notes[i].id
  {
  }

  /** Updating twice with the same note is updating once. */
  lemma UpdateIdempotent(notes: seq<Note>, u: Note, now: int)
    ensures Updated(Updated(notes, u, now), u, now) == Updated(notes, u, now)
  {
  }

  /** Deleting a note that was just updated leaves what deleting it alone
      leaves: the update touched nothing else. */
  lemma DeleteAfterUpdate(notes: seq<Note>, u: Note, now: int)
    ensures Deleted(Updated(notes, u, now), u.id) == Deleted(notes, u.id)
  {
    DeleteAfterUpdateFrom(notes, u, now);
  }

  lemma {:induction false} DeleteAfterUpdateFrom(notes: seq<Note>, u: Note, now: int)
    ensures Filter(Updated(notes, u, now), OtherThan(u.id)) == Filter(notes, OtherThan(u.id))
  {
    if notes != [] {
      var up := Updated(notes, u, now);
      assert up[1..] == Updated(notes[1..], u, now);
      DeleteAfterUpdateFrom(notes[1..], u, now);
    }
  }

  /** Deleting the id of a note that was just added undoes the addition,
      together with any older note of that id. */
  lemma DeleteAfterAdd(notes: seq<Note>, n: Note)
    ensures Deleted(notes + [n], n.id) == Deleted(notes, n.id)
  {
    FilterConcat(notes, [n], OtherThan(n.id));
  }

  /** Deleting is idempotent. */
  lemma DeleteIdempotent(notes: seq<Note>, id: string)
    ensures Deleted(Deleted(notes, id), id) == Deleted(notes, id)
  {
    FilterIdempotent(notes, OtherThan(id));
  }

  /** The state of the hook: the `notes` array held by `useState`. */
  class NotesStore {
    var notes: seq<Note>

    /** `useState<Note[]>([])`. */
    constructor()
      ensures notes == []
    {
      notes := [];
    }

    /** `addNote`: the note is appended after every existing note. */
    method AddNote(n: Note)
      modifies this
      ensures notes == old(notes) + [n]
      ensures |notes| == |old(notes)| + 1 && notes[..|old(notes)|] == old(notes)
    {
      notes := notes + [n];
    }

    /** `updateNote`: every note with the same id becomes `u`, stamped with
        the clock reading `now`. */
    method UpdateNote(u: Note, now: int)
      modifies this
      ensures notes == Updated(old(notes), u, now)
    {
      notes := Updated(notes, u, now);
    }

    /** `deleteNote`: every note with that id goes, the rest keep their
        order. */
    method DeleteNote(id: string)
      modifies this
      ensures notes == Deleted(old(notes), id)
    {
      notes := Deleted(notes, id);
    }

    /** `getNotesByTag`: the notes carrying exactly that tag (compared
        case-sensitively), in list order. */
    function GetNotesByTag(tag: string): (r: seq<Note>)
      reads this
      ensures forall n :: n in r <==> n in notes && tag in n.tags
      ensures IsSubseq(r, notes)
    {
      FilterSubseq(notes, Tagged(tag));
      Filter(notes, Tagged(tag))
    }

    /** `getNotesByDate`: the notes created on the local day of `date`, in
        list order. */
    function GetNotesByDate(date: int): (r: seq<Note>)
      reads this
      ensures forall n :: n in r <==> n in notes && DayOf(n.createdAt) == DayOf(date)
      ensures IsSubseq(r, notes)
    {
      FilterSubseq(notes, SameDay(date));
      Filter(notes, SameDay(date))
    }

    /** `getAllTags`: a `Set` filled note by note, tag by tag, then read
        out in insertion order. */
    method GetAllTags() returns (tags: seq<string>)
      ensures tags == Dedupe(AllTags(notes))
      ensures NoDups(tags)
      ensures forall t :: t in tags <==> exists i :: 0 <= i < |notes| && t in notes[i].tags
    {
      tags := [];
      var i := 0;
      while i < |notes|
        invariant 0 <= i <= |notes|
        invariant tags == Dedupe(AllTags(notes[..i]))
      {
        assert notes[..i + 1][..i] == notes[..i];
        tags := AddEach(tags, notes[i].tags, AllTags(notes[..i]));
        i := i + 1;
      }
      assert notes[..|notes|] == notes;
      forall t ensures t in tags <==> exists i :: 0 <= i < |notes| && t in notes[i].tags {
        AllTagsMembership(notes, t);
      }
    }
  }
}
