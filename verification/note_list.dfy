/** The dashboard note list (src/components/features/dashboard/NoteList.tsx):
    after the debounced search term settles, the list shows either every note
    or the notes the search finds, pinned notes first and then the most
    recently updated. In the desktop build the search is delegated to a
    native command that returns the ids it found; that command is not part
    of this model and its answer is an input, `None` when the app is not the
    desktop build or the command failed, in both of which cases the
    JavaScript filter runs. */
module NoteListPanel {
  import opened Common

  /** A note row: `content_preview` and `tags` may be missing, `is_pinned`
      missing counts as false, and `updated_at` is read as a timestamp. */
  datatype ListNote = ListNote(id: string, title: string, contentPreview: Option<string>,
                               tags: Option<seq<string>>, isPinned: bool, updatedAt: int)

  /** `x || ''` and `x || []`. */
  function OrEmpty<T>(o: Option<seq<T>>): seq<T> {
    if o.Some? then o.value else []
  }

  /** The comparator shared by the three sorts: `Number(b.pinned) -
      Number(a.pinned)`, then `b.updated - a.updated`; `a` may stay before
      `b` iff the comparator is not positive. */
  function PinThenRecent(): (ListNote, ListNote) -> bool {
    (a: ListNote, b: ListNote) =>
      (a.isPinned && !b.isPinned) || (a.isPinned == b.isPinned && a.updatedAt >= b.updatedAt)
  }

  lemma PinThenRecentTotal()
    ensures TotalPreorder(PinThenRecent())
  {
  }

  /** The list order: no unpinned note before a pinned one, and among
      notes with the same pin state, the newer first. */
  predicate PinnedFirst(s: seq<ListNote>) {
    forall i, j :: 0 <= i < j < |s| ==>
      (s[i].isPinned || !s[j].isPinned)
      && (s[i].isPinned == s[j].isPinned ==> s[i].updatedAt >= s[j].updatedAt)
  }

  /** The stable sort with `PinThenRecent`. */
  function Arranged(notes: seq<ListNote>): (r: seq<ListNote>)
    ensures multiset(r) == multiset(notes)
    ensures PinnedFirst(r)
  {
    PinThenRecentTotal();
    Sort(notes, PinThenRecent())
  }

  /** The test of `filterNotesJs` against the lowered term. */
  predicate JsMatches(n: ListNote, lowered: string) {
    Mentions(n.title, lowered) || Mentions(OrEmpty(n.contentPreview), lowered)
    || AnyMentions(OrEmpty(n.tags), lowered)
  }

  function JsFilter(lowered: string): ListNote -> bool {
    (n: ListNote) => JsMatches(n, lowered)
  }

  function IdIn(ids: seq<string>): ListNote -> bool {
    (n: ListNote) => n.id in ids
  }

  /** The notes a filter keeps, arranged. */
  function ArrangedHits(notes: seq<ListNote>, keep: ListNote -> bool): (r: seq<ListNote>)
    ensures PinnedFirst(r)
    ensures multiset(r) <= multiset(notes)
    ensures forall n :: n in r <==> n in notes && keep(n)
  {
    FilterMultiset(notes, keep);
    var r := Arranged(Filter(notes, keep));
    assert forall n :: n in r <==> n in Filter(notes, keep) by {
      forall n ensures n in r <==> n in Filter(notes, keep) {
        assert n in r <==> n in multiset(r);
      }
    }
    r
  }

  /** What the search effect stores in `filteredNotes` for the settled
      term, given the native command's answer. */
  function Shown(notes: seq<ListNote>, term: string, native: Option<seq<string>>): (r: seq<ListNote>)
    ensures PinnedFirst(r)
    ensures multiset(r) <= multiset(notes)
    ensures IsBlank(term) ==> multiset(r) == multiset(notes)
    ensures !IsBlank(term) && native.Some? ==>
              forall n :: n in r <==> n in notes && n.id in native.value
    ensures !IsBlank(term) && native.None? ==>
              forall n :: n in r <==> n in notes && JsMatches(n, Lower(term))
  {
    if Trim(term) == [] then Arranged(notes)
    else if native.Some? then ArrangedHits(notes, IdIn(native.value))
    else ArrangedHits(notes, JsFilter(Lower(term)))
  }

  /** No note is shown twice when none is listed twice. */
  lemma ShownNoDups(notes: seq<ListNote>, term: string, native: Option<seq<string>>)
    requires NoDups(notes)
    ensures NoDups(Shown(notes, term, native))
  {
    if Trim(term) == [] {
      MultisetNoDups(notes, Shown(notes, term, native));
    } else {
      var p := if native.Some? then IdIn(native.value) else JsFilter(Lower(term));
      NoDupsFilter(notes, p);
      MultisetNoDups(Filter(notes, p), Shown(notes, term, native));
    }
  }

  const NoPreview := "미리보기 없음"

  /** `getContentPreview`: a missing or empty preview shows the
      placeholder; a preview of 100 characters or more gets `...` appended
      (it is not cut); a shorter one is shown as is. */
  function ContentPreview(previewText: Option<string>): (r: string)
    ensures previewText.None? || previewText.value == [] ==> r == NoPreview
    ensures previewText.Some? && previewText.value != [] ==>
              StartsWith(r, previewText.value)
              && (|previewText.value| >= 100 <==> r == previewText.value + "...")
              && (|previewText.value| < 100 <==> r == previewText.value)
  {
    if previewText.None? || previewText.value == [] then NoPreview
    else if |previewText.value| >= 100 then previewText.value + "..."
    else previewText.value
  }

  /** The component's state: the notes it was given, the term as typed,
      the debounced term and the list it shows. */
  class NoteList {
    var notes: seq<ListNote>
    var searchTerm: string
    var debouncedSearchTerm: string
    var filteredNotes: seq<ListNote>

    /** Mounting: both terms empty and the given notes shown as given; the
        search effect then arranges them. */
    constructor(notes: seq<ListNote>)
      ensures this.notes == notes && searchTerm == [] && debouncedSearchTerm == []
      ensures filteredNotes == Arranged(notes)
    {
      this.notes := notes;
      searchTerm := [];
      debouncedSearchTerm := [];
      filteredNotes := notes;
      new;
      Search(None);
    }

    /** The search effect: store `Shown` for the settled term. */
    method Search(native: Option<seq<string>>)
      modifies this
      ensures filteredNotes == Shown(notes, debouncedSearchTerm, native)
      ensures notes == old(notes) && searchTerm == old(searchTerm)
      ensures debouncedSearchTerm == old(debouncedSearchTerm)
    {
      filteredNotes := Shown(notes, debouncedSearchTerm, native);
    }

    /** Typing: only the term changes until the debounce delay elapses. */
    method SetSearchTerm(term: string)
      modifies this
      ensures searchTerm == term
      ensures notes == old(notes) && debouncedSearchTerm == old(debouncedSearchTerm)
      ensures filteredNotes == old(filteredNotes)
    {
      searchTerm := term;
    }

    /** The debounce timer fires: the typed term settles and the search
        effect runs for it. */
    method DebounceElapsed(native: Option<seq<string>>)
      modifies this
      ensures debouncedSearchTerm == old(searchTerm) && searchTerm == old(searchTerm)
      ensures notes == old(notes)
      ensures filteredNotes == Shown(notes, debouncedSearchTerm, native)
    {
      debouncedSearchTerm := searchTerm;
      Search(native);
    }

    /** New notes from the parent: the search effect runs again. */
    method SetNotes(notes: seq<ListNote>, native: Option<seq<string>>)
      modifies this
      ensures this.notes == notes
      ensures searchTerm == old(searchTerm) && debouncedSearchTerm == old(debouncedSearchTerm)
      ensures filteredNotes == Shown(notes, debouncedSearchTerm, native)
    {
      this.notes := notes;
      Search(native);
    }
  }
}
