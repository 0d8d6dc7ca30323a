/** The later `useSearch` hook of the Amnesia client
    (Amnesia/src/hooks/useSearch.tsx): the same `searchNotes` filter as
    `AmnesiaUseSearch`, now also applied to the hook's own notes and
    memoised as `searchResults`. The memo is recomputed whenever the term
    or the notes change, so it is a function of both. */
module AmnesiaUseSearchMemo {
  import opened Common
  import UseNotes
  import UseSearch
  import AmnesiaUseSearch

  /** `useMemo(() => searchNotes(notes), [searchNotes, notes])`: the notes
      the current term finds, in their original order, never a note that
      was not given. */
  function SearchResults(notes: seq<UseNotes.Note>, searchTerm: string): (r: seq<UseNotes.Note>)
    ensures |r| <= |notes| && IsSubseq(r, notes)
    ensures forall n :: n in r ==> n in notes
    ensures IsBlank(searchTerm) ==> r == notes
  {
    AmnesiaUseSearch.SearchNotes(searchTerm, notes)
  }

  /** A note is among the results iff it was given and either the term is
      blank or the note's title, content or some tag contains it. */
  lemma ResultsKeepIff(notes: seq<UseNotes.Note>, searchTerm: string, n: UseNotes.Note)
    ensures n in SearchResults(notes, searchTerm) <==>
              n in notes && (IsBlank(searchTerm) || UseSearch.NoteMatches(n, Lower(searchTerm)))
  {
  }

  /** Filtering the memoised results again with the same term returns
      them unchanged. */
  lemma ResultsStable(notes: seq<UseNotes.Note>, searchTerm: string)
    ensures SearchResults(SearchResults(notes, searchTerm), searchTerm) == SearchResults(notes, searchTerm)
  {
    AmnesiaUseSearch.SearchNotesIdempotent(searchTerm, notes);
  }
}
