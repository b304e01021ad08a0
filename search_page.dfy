/** The stateful part of the search page (frontend/pages/Search.tsx): a draft
    copy of the filters that the sidebar edits, an applied copy that governs the
    results, and the typed query next to the committed one. */
module SearchPage {
  import opened Domain
  import opened Seqs
  import opened SearchEngine

  class SearchState {
    // what the user is typing or selecting right now
    var queryInput: string
    var draftCategories: seq<FacilityCategory>
    var draftTags: seq<string>
    var draftStates: seq<string>
    var draftSortBy: SortKey
    // what actually filters the results
    var query: string
    var selectedCategories: seq<FacilityCategory>
    var selectedTags: seq<string>
    var selectedStates: seq<string>
    var sortBy: SortKey

    /** No selection list ever holds an item twice. */
    ghost predicate Valid()
      reads this
    {
      DuplicateFree(Draft()) && DuplicateFree(Applied())
    }

    function Draft(): Filters
      reads this
    {
      Filters(draftCategories, draftTags, draftStates, draftSortBy)
    }

    function Applied(): Filters
      reads this
    {
      Filters(selectedCategories, selectedTags, selectedStates, sortBy)
    }

    /** The facilities the page shows: a function of the applied state alone. */
    function Results(facilities: seq<Facility>): (r: seq<Facility>)
      reads this
      ensures forall f :: f in r <==> f in facilities && Matches(f, query, Applied())
      ensures SortedDesc(r, sortBy)
    {
      FilteredFacilities(facilities, query, Applied())
    }

    /** Enables the "Apply Filters" button. */
    function HasDraftChanges(): bool
      reads this
    {
      DraftChanged(Draft(), Applied())
    }

    /** Shows the "Reset" link. */
    function HasAppliedFilters(): bool
      reads this
    {
      SearchEngine.HasAppliedFilters(Applied())
    }

    constructor (initialQuery: string)
      ensures Valid()
      ensures queryInput == initialQuery && query == initialQuery
      ensures Draft() == NoFilters() && Applied() == NoFilters()
    {
      queryInput, query := initialQuery, initialQuery;
      draftCategories, draftTags, draftStates, draftSortBy := [], [], [], ByRating;
      selectedCategories, selectedTags, selectedStates, sortBy := [], [], [], ByRating;
    }

    /** Typing in the search box. */
    method SetQueryInput(text: string)
      modifies this
      ensures queryInput == text
      ensures query == old(query) && Draft() == old(Draft()) && Applied() == old(Applied())
      ensures forall fs :: Results(fs) == old(Results(fs))
    {
      queryInput := text;
    }

    /** Choosing a sort order in the sidebar. */
    method SetDraftSortBy(order: SortKey)
      modifies this
      ensures Draft() == old(Draft()).(sortBy := order)
      ensures queryInput == old(queryInput) && query == old(query) && Applied() == old(Applied())
      ensures forall fs :: Results(fs) == old(Results(fs))
    {
      draftSortBy := order;
    }

    method ToggleCategory(cat: FacilityCategory)
      requires Valid()
      modifies this
      ensures Valid()
      ensures Draft() == old(Draft()).(categories := Toggle(old(draftCategories), cat))
      ensures cat in draftCategories <==> cat !in old(draftCategories)
      ensures queryInput == old(queryInput) && query == old(query) && Applied() == old(Applied())
      ensures forall fs :: Results(fs) == old(Results(fs))
    {
      ToggleKeepsNoDup(draftCategories, cat);
      draftCategories := Toggle(draftCategories, cat);
    }

    method ToggleTag(tag: string)
      requires Valid()
      modifies this
      ensures Valid()
      ensures Draft() == old(Draft()).(tags := Toggle(old(draftTags), tag))
      ensures tag in draftTags <==> tag !in old(draftTags)
      ensures queryInput == old(queryInput) && query == old(query) && Applied() == old(Applied())
      ensures forall fs :: Results(fs) == old(Results(fs))
    {
      ToggleKeepsNoDup(draftTags, tag);
      draftTags := Toggle(draftTags, tag);
    }

    method ToggleState(state: string)
      requires Valid()
      modifies this
      ensures Valid()
      ensures Draft() == old(Draft()).(states := Toggle(old(draftStates), state))
      ensures state in draftStates <==> state !in old(draftStates)
      ensures queryInput == old(queryInput) && query == old(query) && Applied() == old(Applied())
      ensures forall fs :: Results(fs) == old(Results(fs))
    {
      ToggleKeepsNoDup(draftStates, state);
      draftStates := Toggle(draftStates, state);
    }

    /** Commits the draft filters; the query is left alone. */
    method ApplyFilters()
      requires Valid()
      modifies this
      ensures Valid()
      ensures Applied() == old(Draft()) && Draft() == old(Draft())
      ensures queryInput == old(queryInput) && query == old(query)
      ensures !HasDraftChanges()
    {
      selectedCategories := draftCategories;
      selectedTags := draftTags;
      selectedStates := draftStates;
      sortBy := draftSortBy;
    }

    /** Clears both copies of the filters; neither query is touched. */
    method ResetFilters()
      modifies this
      ensures Valid()
      ensures Draft() == NoFilters() && Applied() == NoFilters()
      ensures queryInput == old(queryInput) && query == old(query)
      ensures !HasDraftChanges() && !HasAppliedFilters()
    {
      draftCategories, draftTags, draftStates, draftSortBy := [], [], [], ByRating;
      selectedCategories, selectedTags, selectedStates, sortBy := [], [], [], ByRating;
    }

    /** Commits the typed query only. */
    method RunSearch()
      modifies this
      ensures query == old(queryInput) && queryInput == old(queryInput)
      ensures Draft() == old(Draft()) && Applied() == old(Applied())
    {
      query := queryInput;
    }
  }

  // ----- the toggles and the "Apply Filters" button

  /** From a draft in step with the applied filters, one toggle of a category
      enables the button, and a second toggle of the same category disables it. */
  lemma ToggleCategoryEnablesApply(draft: Filters, applied: Filters, c: FacilityCategory)
    requires DuplicateFree(draft) && DuplicateFree(applied) && !DraftChanged(draft, applied)
    ensures DraftChanged(draft.(categories := Toggle(draft.categories, c)), applied)
    ensures !DraftChanged(draft.(categories := Toggle(Toggle(draft.categories, c), c)), applied)
  {
    var once := draft.(categories := Toggle(draft.categories, c));
    var twice := draft.(categories := Toggle(once.categories, c));
    ToggleKeepsNoDup(draft.categories, c);
    ToggleKeepsNoDup(once.categories, c);
    DraftChangedIffSetsDiffer(draft, applied);
    DraftChangedIffSetsDiffer(once, applied);
    DraftChangedIffSetsDiffer(twice, applied);
    assert (c in Elems(once.categories)) != (c in Elems(draft.categories));
    ToggleTwice(draft.categories, c);
  }

  /** The same for a tag. */
  lemma ToggleTagEnablesApply(draft: Filters, applied: Filters, t: string)
    requires DuplicateFree(draft) && DuplicateFree(applied) && !DraftChanged(draft, applied)
    ensures DraftChanged(draft.(tags := Toggle(draft.tags, t)), applied)
    ensures !DraftChanged(draft.(tags := Toggle(Toggle(draft.tags, t), t)), applied)
  {
    var once := draft.(tags := Toggle(draft.tags, t));
    var twice := draft.(tags := Toggle(once.tags, t));
    ToggleKeepsNoDup(draft.tags, t);
    ToggleKeepsNoDup(once.tags, t);
    DraftChangedIffSetsDiffer(draft, applied);
    DraftChangedIffSetsDiffer(once, applied);
    DraftChangedIffSetsDiffer(twice, applied);
    assert (t in Elems(once.tags)) != (t in Elems(draft.tags));
    ToggleTwice(draft.tags, t);
  }

  /** The same for a state. */
  lemma ToggleStateEnablesApply(draft: Filters, applied: Filters, st: string)
    requires DuplicateFree(draft) && DuplicateFree(applied) && !DraftChanged(draft, applied)
    ensures DraftChanged(draft.(states := Toggle(draft.states, st)), applied)
    ensures !DraftChanged(draft.(states := Toggle(Toggle(draft.states, st), st)), applied)
  {
    var once := draft.(states := Toggle(draft.states, st));
    var twice := draft.(states := Toggle(once.states, st));
    ToggleKeepsNoDup(draft.states, st);
    ToggleKeepsNoDup(once.states, st);
    DraftChangedIffSetsDiffer(draft, applied);
    DraftChangedIffSetsDiffer(once, applied);
    DraftChangedIffSetsDiffer(twice, applied);
    assert (st in Elems(once.states)) != (st in Elems(draft.states));
    ToggleTwice(draft.states, st);
  }

  /** The draft sort key alone also enables the button. */
  lemma SortChangeEnablesApply(draft: Filters, applied: Filters, order: SortKey)
    requires !DraftChanged(draft, applied)
    ensures DraftChanged(draft.(sortBy := order), applied) <==> order != applied.sortBy
  {
  }
}
