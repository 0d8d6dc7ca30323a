/** The earlier dashboard note list (src/components/features/dashboard/noteList.tsx):
    the shown notes are computed on every render from the notes and the
    search term, with no debounce, no blank-term shortcut and no pinning:
    the notes whose title, preview or some tag contains the term, compared
    case-insensitively, newest first. Its `getContentPreview` is the same
    function as the later list's, `NoteListPanel.ContentPreview`. */
module PlainNoteList {
  import opened Common
  import opened NoteListPanel

  /** `(a, b) => b.updated - a.updated`: `a` may stay before `b` iff it is
      not older. */
  function Recent(): (ListNote, ListNote) -> bool {
    (a: ListNote, b: ListNote) => a.updatedAt >= b.updatedAt
  }

  lemma RecentTotal()
    ensures TotalPreorder(Recent())
  {
  }

  /** `filteredNotes`. */
  function FilteredNotes(notes: seq<ListNote>, searchTerm: string): (r: seq<ListNote>)
    ensures forall n :: n in r <==> n in notes && JsMatches(n, Lower(searchTerm))
    ensures forall i, j :: 0 <= i < j < |r| ==> r[i].updatedAt >= r[j].updatedAt
    ensures multiset(r) <= multiset(notes)
  {
    var kept := Filter(notes, JsFilter(Lower(searchTerm)));
    FilterMultiset(notes, JsFilter(Lower(searchTerm)));
    RecentTotal();
    var r := Sort(kept, Recent());
    assert forall n :: n in r <==> n in kept by {
      forall n ensures n in r <==> n in kept {
        assert n in r <==> n in multiset(r);
      }
    }
    r
  }

  /** The empty term is contained in every title, so every note is shown. */
  lemma EmptyTermKeepsAll(notes: seq<ListNote>)
    ensures multiset(FilteredNotes(notes, [])) == multiset(notes)
  {
    forall n | n in notes ensures JsFilter(Lower([]))(n) {
      assert StartsWith(Lower(n.title), []);
    }
    FilterKeepsAll(notes, JsFilter(Lower([])));
  }
}
