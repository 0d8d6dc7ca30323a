/** The `useSearch` hook of the Amnesia client (Amnesia/src/hooks/useSearch.ts):
    `searchNotes` keeps the notes whose title, content or some tag contains
    the search term, compared case-insensitively; a blank term keeps every
    note. The Amnesia note record has the same fields as the one of
    `useNotes`. */
module AmnesiaUseSearch {
  import opened Common
  import UseNotes
  import UseSearch

  function Matching(lowered: string): UseNotes.Note -> bool {
    (n: UseNotes.Note) => UseSearch.NoteMatches(n, lowered)
  }

  /** `searchNotes(notes)` under the current `searchTerm`. */
  function SearchNotes(searchTerm: string, notes: seq<UseNotes.Note>): (r: seq<UseNotes.Note>)
    ensures IsBlank(searchTerm) ==> r == notes
    ensures !IsBlank(searchTerm) ==>
              forall n :: n in r <==> n in notes && UseSearch.NoteMatches(n, Lower(searchTerm))
    ensures IsSubseq(r, notes)
  {
    if Trim(searchTerm) == [] then SubseqRefl(notes); notes
    else FilterSubseq(notes, Matching(Lower(searchTerm))); Filter(notes, Matching(Lower(searchTerm)))
  }

  /** Searching the result again with the same term changes nothing. */
  lemma SearchNotesIdempotent(searchTerm: string, notes: seq<UseNotes.Note>)
    ensures SearchNotes(searchTerm, SearchNotes(searchTerm, notes)) == SearchNotes(searchTerm, notes)
  {
    if !IsBlank(searchTerm) {
      FilterIdempotent(notes, Matching(Lower(searchTerm)));
    }
  }
}
