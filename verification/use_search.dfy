/** The `useSearch` hook (src/hooks/useSearch.ts): a case-insensitive
    substring search over the notes of `useNotes` and the plans of
    `usePlans`, plus the tags of both, whose result the hook keeps in state
    and recomputes whenever the query or the data change. */
module UseSearch {
  import opened Common
  import UseNotes
  import UsePlans

  datatype SearchResults = SearchResults(notes: seq<UseNotes.Note>, plans: seq<UsePlans.Plan>,
                                         tags: seq<string>)

  /** `{notes: [], plans: [], tags: []}`. */
  const NoResults := SearchResults([], [], [])

  /** The note test, against the lowered query. */
  predicate NoteMatches(n: UseNotes.Note, lowered: string) {
    Mentions(n.title, lowered) || Mentions(n.content, lowered) || AnyMentions(n.tags, lowered)
  }

  /** The plan test, against the lowered query. */
  predicate PlanMatches(p: UsePlans.Plan, lowered: string) {
    Mentions(p.title, lowered) || Mentions(p.description, lowered) || AnyMentions(p.tags, lowered)
  }

  function NoteFilter(lowered: string): UseNotes.Note -> bool {
    (n: UseNotes.Note) => NoteMatches(n, lowered)
  }

  function PlanFilter(lowered: string): UsePlans.Plan -> bool {
    (p: UsePlans.Plan) => PlanMatches(p, lowered)
  }

  function TagFilter(lowered: string): string -> bool {
    (t: string) => Mentions(t, lowered)
  }

  /** What `getAllTags` returns: one `Set` filled from every note's tags and
      then every plan's tags, in insertion order. */
  function TagPool(notes: seq<UseNotes.Note>, plans: seq<UsePlans.Plan>): (r: seq<string>)
    ensures NoDups(r)
    ensures forall t :: t in r <==> t in UseNotes.AllTags(notes) || t in UsePlans.AllTags(plans)
  {
    Dedupe(UseNotes.AllTags(notes) + UsePlans.AllTags(plans))
  }

  /** What `performSearch(query)` stores. */
  function Search(notes: seq<UseNotes.Note>, plans: seq<UsePlans.Plan>, query: string): (r: SearchResults)
    ensures IsBlank(query) ==> r == NoResults
    ensures !IsBlank(query) ==>
              (forall n :: n in r.notes <==> n in notes && NoteMatches(n, Lower(query)))
              && (forall p :: p in r.plans <==> p in plans && PlanMatches(p, Lower(query)))
              && (forall t :: t in r.tags <==>
                    (t in UseNotes.AllTags(notes) || t in UsePlans.AllTags(plans)) && Mentions(t, Lower(query)))
    ensures IsSubseq(r.notes, notes) && IsSubseq(r.plans, plans) && NoDups(r.tags)
  {
    if Trim(query) == [] then NoResults
    else
      var q := Lower(query);
      NoDupsFilter(TagPool(notes, plans), TagFilter(q));
      FilterSubseq(notes, NoteFilter(q));
      FilterSubseq(plans, PlanFilter(q));
      SearchResults(Filter(notes, NoteFilter(q)), Filter(plans, PlanFilter(q)),
                    Filter(TagPool(notes, plans), TagFilter(q)))
  }

  /** A matched tag is carried by some note or some plan. */
  lemma MatchedTagsAreCarried(notes: seq<UseNotes.Note>, plans: seq<UsePlans.Plan>, query: string, t: string)
    requires t in Search(notes, plans, query).tags
    ensures (exists i :: 0 <= i < |notes| && t in notes[i].tags)
            || (exists j :: 0 <= j < |plans| && t in plans[j].tags)
  {
    UseNotes.AllTagsMembership(notes, t);
    UsePlans.AllTagsMembership(plans, t);
  }

  /** Searching the found notes and plans again with the same query finds
      them all again. */
  lemma SearchAgainFindsSame(notes: seq<UseNotes.Note>, plans: seq<UsePlans.Plan>, query: string)
    ensures var r := Search(notes, plans, query);
            Search(r.notes, r.plans, query).notes == r.notes
            && Search(r.notes, r.plans, query).plans == r.plans
  {
    if !IsBlank(query) {
      FilterIdempotent(notes, NoteFilter(Lower(query)));
      FilterIdempotent(plans, PlanFilter(Lower(query)));
    }
  }

  /** The hook's state: the data it reads, the query and the stored
      results. */
  class SearchHook {
    var notes: seq<UseNotes.Note>
    var plans: seq<UsePlans.Plan>
    var searchQuery: string
    var searchResults: SearchResults

    /** The stored results are those of the current query on the current
        data. Both effects keep this: the first reruns `performSearch`
        whenever the query or the callback (that is, the data) change. */
    predicate Valid()
      reads this
    {
      searchResults == Search(notes, plans, searchQuery)
    }

    /** Mounting: an empty query, empty results; the first effect then
        searches for the empty query, which yields empty results again. */
    constructor(notes: seq<UseNotes.Note>, plans: seq<UsePlans.Plan>)
      ensures this.notes == notes && this.plans == plans && searchQuery == []
      ensures searchResults == NoResults
      ensures Valid()
    {
      this.notes := notes;
      this.plans := plans;
      searchQuery := [];
      searchResults := NoResults;
    }

    /** `getAllTags`: fill one `Set` from every note's tags, then every
        plan's tags. */
    method GetAllTags() returns (tags: seq<string>)
      ensures tags == TagPool(notes, plans)
    {
      tags := NoteTagSet(notes);
      tags := AddPlanTags(tags, UseNotes.AllTags(notes), plans);
    }

    /** `performSearch(query)`: a blank query stores empty results;
        otherwise the matching notes, plans and tags are stored. */
    method PerformSearch(query: string)
      modifies this
      ensures searchResults == Search(notes, plans, query)
      ensures notes == old(notes) && plans == old(plans) && searchQuery == old(searchQuery)
    {
      if Trim(query) == [] {
        searchResults := NoResults;
        return;
      }
      var lowercaseQuery := Lower(query);
      var matchedNotes := Filter(notes, NoteFilter(lowercaseQuery));
      var matchedPlans := Filter(plans, PlanFilter(lowercaseQuery));
      var allTags := GetAllTags();
      searchResults := SearchResults(matchedNotes, matchedPlans, Filter(allTags, TagFilter(lowercaseQuery)));
    }

    /** `setSearchQuery`, followed by the effect that searches for it. */
    method SetSearchQuery(query: string)
      modifies this
      ensures searchQuery == query && notes == old(notes) && plans == old(plans)
      ensures Valid()
    {
      searchQuery := query;
      PerformSearch(query);
    }

    /** New notes or plans from the stores, followed by the effects that
        search again for the current query. */
    method SetData(notes: seq<UseNotes.Note>, plans: seq<UsePlans.Plan>)
      modifies this
      ensures this.notes == notes && this.plans == plans && searchQuery == old(searchQuery)
      ensures Valid()
    {
      this.notes := notes;
      this.plans := plans;
      PerformSearch(searchQuery);
      if Trim(searchQuery) != [] {
        PerformSearch(searchQuery);
      }
    }
  }

  /** The first loop of `getAllTags`: the notes' tags. */
  method NoteTagSet(notes: seq<UseNotes.Note>) returns (tags: seq<string>)
    ensures tags == Dedupe(UseNotes.AllTags(notes))
  {
    tags := [];
    var i := 0;
    while i < |notes|
      invariant 0 <= i <= |notes|
      invariant tags == Dedupe(UseNotes.AllTags(notes[..i]))
    {
      assert notes[..i + 1][..i] == notes[..i];
      tags := AddEach(tags, notes[i].tags, UseNotes.AllTags(notes[..i]));
      i := i + 1;
    }
    assert notes[..|notes|] == notes;
  }

  /** The second loop of `getAllTags`: the plans' tags, added to the set
      already filled from `fromNotes`. */
  method AddPlanTags(tags: seq<string>, fromNotes: seq<string>, plans: seq<UsePlans.Plan>)
    returns (tags': seq<string>)
    requires tags == Dedupe(fromNotes)
    ensures tags' == Dedupe(fromNotes + UsePlans.AllTags(plans))
  {
    tags' := tags;
    var j := 0;
    assert fromNotes + UsePlans.AllTags(plans[..0]) == fromNotes;
    while j < |plans|
      invariant 0 <= j <= |plans|
      invariant tags' == Dedupe(fromNotes + UsePlans.AllTags(plans[..j]))
    {
      assert plans[..j + 1][..j] == plans[..j];
      assert fromNotes + UsePlans.AllTags(plans[..j + 1])
             == (fromNotes + UsePlans.AllTags(plans[..j])) + plans[j].tags;
      tags' := AddEach(tags', plans[j].tags, fromNotes + UsePlans.AllTags(plans[..j]));
      j := j + 1;
    }
    assert plans[..|plans|] == plans;
  }
}
