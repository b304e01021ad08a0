/** The pure part of the search page (frontend/pages/Search.tsx): the
    `filteredFacilities` filter-then-sort, and the `hasDraftChanges` and
    `hasAppliedFilters` tests. */
module SearchEngine {
  import opened Domain
  import opened Text
  import opened Seqs

  /** The sort selector: 'rating' or 'reviews'. */
  datatype SortKey = ByRating | ByReviews

  /** One copy (draft or applied) of the four filter dimensions of the page. */
  datatype Filters = Filters(
    categories: seq<FacilityCategory>,
    tags: seq<string>,
    states: seq<string>,
    sortBy: SortKey)

  /** The state of a freshly opened (or reset) page. */
  function NoFilters(): Filters {
    Filters([], [], [], ByRating)
  }

  /** `query.trim().toLowerCase()`: no upper-case letter, no white space at
      either end, and empty exactly for a blank query. */
  function NormalizeQuery(query: string): (r: string)
    ensures |r| <= |query|
    ensures forall k :: 0 <= k < |r| ==> !IsUpper(r[k])
    ensures r == [] || (!IsSpace(r[0]) && !IsSpace(r[|r| - 1]))
    ensures r == [] <==> forall k :: 0 <= k < |query| ==> IsSpace(query[k])
    ensures |r| == |Trim(query)| && forall k :: 0 <= k < |r| ==> r[k] == LowerChar(Trim(query)[k])
  {
    Lower(Trim(query))
  }

  /** Case-insensitive text match; `q` is the normalized query. */
  predicate MatchesQuery(f: Facility, q: string) {
    |q| == 0 ||
    Includes(Lower(f.name), q) ||
    Includes(Lower(f.address), q) ||
    Includes(Lower(f.city), q) ||
    Includes(Lower(f.state), q) ||
    exists t | t in f.tags :: Includes(Lower(t), q)
  }

  /** Categories are OR-ed; no selection means no restriction. */
  predicate MatchesCategory(f: Facility, selected: seq<FacilityCategory>) {
    |selected| == 0 || f.category in selected
  }

  /** Tags are AND-ed; no selection means no restriction. */
  predicate MatchesTags(f: Facility, selected: seq<string>) {
    |selected| == 0 || forall t | t in selected :: t in f.tags
  }

  /** States are OR-ed; no selection means no restriction. */
  predicate MatchesStates(f: Facility, selected: seq<string>) {
    |selected| == 0 || f.state in selected
  }

  /** The filter callback: all four predicate groups hold. */
  predicate Matches(f: Facility, query: string, flt: Filters) {
    MatchesQuery(f, NormalizeQuery(query)) &&
    MatchesCategory(f, flt.categories) &&
    MatchesTags(f, flt.tags) &&
    MatchesStates(f, flt.states)
  }

  /** The quantity the comparator subtracts. */
  function Key(f: Facility, order: SortKey): int {
    match order
    case ByRating => f.rating
    case ByReviews => f.reviewCount
  }

  /** Non-increasing in the sort key. */
  ghost predicate SortedDesc(s: seq<Facility>, order: SortKey) {
    forall i, j :: 0 <= i < j < |s| ==> Key(s[j], order) <= Key(s[i], order)
  }

  /** Places `x` before the first element whose key is not greater than its own,
      so that `x` stays ahead of the equal-keyed elements that followed it. */
  function Insert(x: Facility, s: seq<Facility>, order: SortKey): (r: seq<Facility>)
    requires SortedDesc(s, order)
    ensures multiset(r) == multiset(s) + multiset{x}
    ensures SortedDesc(r, order)
  {
    if s == [] || Key(s[0], order) <= Key(x, order) then
      ConsSorted(x, s, order);
      [x] + s
    else
      var rest := Insert(x, s[1..], order);
      assert s == [s[0]] + s[1..];
      UpperBoundOfInserted(x, s[0], s[1..], rest, order);
      ConsSorted(s[0], rest, order);
      [s[0]] + rest
  }

  /** A key not below the head of a sorted sequence may go in front of it. */
  lemma ConsSorted(x: Facility, s: seq<Facility>, order: SortKey)
    requires SortedDesc(s, order)
    requires s == [] || Key(s[0], order) <= Key(x, order)
    ensures SortedDesc([x] + s, order)
  {
    var r := [x] + s;
    forall i, j | 0 <= i < j < |r| ensures Key(r[j], order) <= Key(r[i], order) {
      if i == 0 && j > 1 {
        assert r[j] == s[j - 1] && Key(s[j - 1], order) <= Key(s[0], order);
      }
    }
  }

  /** Every element of `rest`, a permutation of `t` plus `x`, is bounded by `h`
      when `x` and `t` are. */
  lemma UpperBoundOfInserted(x: Facility, h: Facility, t: seq<Facility>, rest: seq<Facility>, order: SortKey)
    requires SortedDesc([h] + t, order) && Key(x, order) < Key(h, order)
    requires multiset(rest) == multiset(t) + multiset{x}
    ensures rest == [] || Key(rest[0], order) <= Key(h, order)
  {
    if rest != [] {
      assert rest[0] in multiset(rest);
      if rest[0] != x {
        assert rest[0] in multiset(t);
        var k :| 0 <= k < |t| && t[k] == rest[0];
        assert ([h] + t)[k + 1] == t[k] && ([h] + t)[0] == h;
        assert Key(([h] + t)[k + 1], order) <= Key(([h] + t)[0], order);
      }
    }
  }

  /** The stable descending sort `Array.prototype.sort` performs with the
      comparator `b.key - a.key`. */
  function SortDesc(s: seq<Facility>, order: SortKey): (r: seq<Facility>)
    ensures multiset(r) == multiset(s)
    ensures forall f :: f in r <==> f in s
    ensures SortedDesc(r, order)
  {
    if s == [] then []
    else
      assert s == [s[0]] + s[1..];
      var r := Insert(s[0], SortDesc(s[1..], order), order);
      assert forall f :: f in r <==> f in s by {
        forall f ensures f in r <==> f in s {
          assert f in r <==> f in multiset(r);
          assert f in s <==> f in multiset(s);
        }
      }
      r
  }

  /** The `filter` step: the facilities satisfying all four predicate groups. */
  function Select(facilities: seq<Facility>, query: string, flt: Filters): seq<Facility> {
    Filter(facilities, f => Matches(f, query, flt))
  }

  /** `filteredFacilities`: the facilities satisfying all four predicate groups,
      and no others, in non-increasing key order. */
  function FilteredFacilities(facilities: seq<Facility>, query: string, flt: Filters): (r: seq<Facility>)
    ensures SortedDesc(r, flt.sortBy)
    ensures forall f :: f in r <==> f in facilities && Matches(f, query, flt)
  {
    SortDesc(Select(facilities, query, flt), flt.sortBy)
  }

  /** Each admitted facility occurs in the result exactly as often as in the
      input. */
  lemma FilteredFacilitiesCounts(facilities: seq<Facility>, query: string, flt: Filters)
    ensures forall f :: multiset(FilteredFacilities(facilities, query, flt))[f] ==
                        if Matches(f, query, flt) then multiset(facilities)[f] else 0
  {
    FilterCount(facilities, f => Matches(f, query, flt));
  }

  // ----- stability of the sort

  /** The elements whose key equals `v`, in order. */
  function WithKey(s: seq<Facility>, order: SortKey, v: int): seq<Facility> {
    Filter(s, f => Key(f, order) == v)
  }

  lemma {:induction false} InsertStable(x: Facility, s: seq<Facility>, order: SortKey, v: int)
    requires SortedDesc(s, order)
    ensures WithKey(Insert(x, s, order), order, v) == (if Key(x, order) == v then [x] else []) + WithKey(s, order, v)
    decreases |s|
  {
    if s != [] && Key(s[0], order) > Key(x, order) {
      InsertStable(x, s[1..], order, v);
    }
  }

  /** Facilities with equal keys keep their input order: the sort is stable. */
  lemma {:induction false} SortStable(s: seq<Facility>, order: SortKey, v: int)
    ensures WithKey(SortDesc(s, order), order, v) == WithKey(s, order, v)
    decreases |s|
  {
    if s != [] {
      SortStable(s[1..], order, v);
      InsertStable(s[0], SortDesc(s[1..], order), order, v);
    }
  }

  // ----- the text match

  /** Queries that agree up to case normalize alike. */
  lemma NormalizeIgnoresCase(q1: string, q2: string)
    requires Lower(q1) == Lower(q2)
    ensures NormalizeQuery(q1) == NormalizeQuery(q2)
  {
    LowerTrimCommute(q1);
    LowerTrimCommute(q2);
  }

  /** Only the lower-cased query matters: two queries that agree up to case
      give the same results. */
  lemma QueryIsCaseInsensitive(facilities: seq<Facility>, q1: string, q2: string, flt: Filters)
    requires Lower(q1) == Lower(q2)
    ensures FilteredFacilities(facilities, q1, flt) == FilteredFacilities(facilities, q2, flt)
  {
    NormalizeIgnoresCase(q1, q2);
    FilterCongruent(facilities, f => Matches(f, q1, flt), f => Matches(f, q2, flt));
    assert Select(facilities, q1, flt) == Select(facilities, q2, flt);
  }

  /** `q` occurs somewhere in the lower-cased `s`. */
  ghost predicate OccursIn(q: string, s: string) {
    exists i :: OccursAt(Lower(s), q, i)
  }

  /** A non-empty normalized query matches exactly the facilities in whose
      lower-cased name, address, city, state or some tag it occurs. */
  lemma QueryMatchMeaning(f: Facility, q: string)
    requires q != []
    ensures MatchesQuery(f, q) <==>
      OccursIn(q, f.name) || OccursIn(q, f.address) || OccursIn(q, f.city) || OccursIn(q, f.state) ||
      exists t | t in f.tags :: OccursIn(q, t)
  {
    IncludesIffOccurs(Lower(f.name), q);
    IncludesIffOccurs(Lower(f.address), q);
    IncludesIffOccurs(Lower(f.city), q);
    IncludesIffOccurs(Lower(f.state), q);
    forall t | t in f.tags ensures Includes(Lower(t), q) <==> OccursIn(q, t) {
      IncludesIffOccurs(Lower(t), q);
    }
  }

  /** An empty or white-space-only query matches every facility. */
  lemma BlankQueryMatchesAll(f: Facility, query: string)
    requires forall k :: 0 <= k < |query| ==> IsSpace(query[k])
    ensures MatchesQuery(f, NormalizeQuery(query))
  {
  }

  /** With no query and no filter, every facility is kept: the result is a
      permutation of the input. */
  lemma NothingSelectedKeepsAll(facilities: seq<Facility>, query: string, order: SortKey)
    requires forall k :: 0 <= k < |query| ==> IsSpace(query[k])
    ensures multiset(FilteredFacilities(facilities, query, Filters([], [], [], order))) == multiset(facilities)
    ensures |FilteredFacilities(facilities, query, Filters([], [], [], order))| == |facilities|
  {
    var flt := Filters([], [], [], order);
    var r := FilteredFacilities(facilities, query, flt);
    FilteredFacilitiesCounts(facilities, query, flt);
    forall f ensures multiset(r)[f] == multiset(facilities)[f] {
      BlankQueryMatchesAll(f, query);
    }
    assert multiset(r) == multiset(facilities);
    assert |multiset(r)| == |multiset(facilities)|;
  }

  // ----- monotonicity in the applied selection

  /** A narrower set of admitted facilities gives a sub-multiset of the results,
      whatever the two sort keys. */
  lemma ResultsMonotone(facilities: seq<Facility>, query: string, narrow: Filters, wide: Filters)
    requires forall f :: Matches(f, query, narrow) ==> Matches(f, query, wide)
    ensures multiset(FilteredFacilities(facilities, query, narrow)) <= multiset(FilteredFacilities(facilities, query, wide))
  {
    var a := FilteredFacilities(facilities, query, narrow);
    var b := FilteredFacilities(facilities, query, wide);
    FilteredFacilitiesCounts(facilities, query, narrow);
    FilteredFacilitiesCounts(facilities, query, wide);
    forall f ensures multiset(a)[f] <= multiset(b)[f] {
    }
  }

  /** Selecting more tags never grows the result (AND semantics). */
  lemma MoreTagsNeverGrow(facilities: seq<Facility>, query: string, flt: Filters, more: seq<string>)
    requires forall t | t in flt.tags :: t in more
    ensures multiset(FilteredFacilities(facilities, query, flt.(tags := more)))
         <= multiset(FilteredFacilities(facilities, query, flt))
  {
    ResultsMonotone(facilities, query, flt.(tags := more), flt);
  }

  /** Once at least one category is selected, selecting more never shrinks the
      result (OR semantics). */
  lemma MoreCategoriesNeverShrink(facilities: seq<Facility>, query: string, flt: Filters, more: seq<FacilityCategory>)
    requires |flt.categories| > 0
    requires forall c | c in flt.categories :: c in more
    ensures multiset(FilteredFacilities(facilities, query, flt))
         <= multiset(FilteredFacilities(facilities, query, flt.(categories := more)))
  {
    ResultsMonotone(facilities, query, flt, flt.(categories := more));
  }

  /** Once at least one state is selected, selecting more never shrinks the
      result (OR semantics). */
  lemma MoreStatesNeverShrink(facilities: seq<Facility>, query: string, flt: Filters, more: seq<string>)
    requires |flt.states| > 0
    requires forall s | s in flt.states :: s in more
    ensures multiset(FilteredFacilities(facilities, query, flt))
         <= multiset(FilteredFacilities(facilities, query, flt.(states := more)))
  {
    ResultsMonotone(facilities, query, flt, flt.(states := more));
  }

  /** The first selected category does shrink the result: with nothing
      selected every category is admitted, with one selected only that one. */
  lemma FirstCategoryCanShrink(f: Facility)
    requires f.category != Hospital
    ensures f in FilteredFacilities([f], "", NoFilters())
    ensures f !in FilteredFacilities([f], "", NoFilters().(categories := [Hospital]))
  {
    assert NormalizeQuery("") == "";
    assert Matches(f, "", NoFilters());
    assert !Matches(f, "", NoFilters().(categories := [Hospital]));
  }

  // ----- hasDraftChanges and hasAppliedFilters

  /** `hasDraftChanges`: the sort keys differ, or some dimension differs in
      length, or the draft holds an item the applied copy lacks. */
  function DraftChanged(draft: Filters, applied: Filters): (r: bool)
    ensures draft == applied ==> !r
    ensures draft.sortBy != applied.sortBy ==> r
  {
    draft.sortBy != applied.sortBy ||
    |draft.categories| != |applied.categories| ||
    |draft.tags| != |applied.tags| ||
    |draft.states| != |applied.states| ||
    (exists c | c in draft.categories :: c !in applied.categories) ||
    (exists t | t in draft.tags :: t !in applied.tags) ||
    (exists s | s in draft.states :: s !in applied.states)
  }

  /** Every selection list is free of duplicates. */
  ghost predicate DuplicateFree(flt: Filters) {
    NoDup(flt.categories) && NoDup(flt.tags) && NoDup(flt.states)
  }

  /** On duplicate-free lists the length-plus-membership test is exactly "the
      sort key or one of the selections, taken as sets, differs". */
  lemma DraftChangedIffSetsDiffer(draft: Filters, applied: Filters)
    requires DuplicateFree(draft) && DuplicateFree(applied)
    ensures DraftChanged(draft, applied) <==>
      draft.sortBy != applied.sortBy ||
      Elems(draft.categories) != Elems(applied.categories) ||
      Elems(draft.tags) != Elems(applied.tags) ||
      Elems(draft.states) != Elems(applied.states)
  {
    SameLengthContainedIsSetEqual(draft.categories, applied.categories);
    SameLengthContainedIsSetEqual(draft.tags, applied.tags);
    SameLengthContainedIsSetEqual(draft.states, applied.states);
  }

  /** `hasAppliedFilters`: some selection is non-empty; sort key and query
      play no part. */
  function HasAppliedFilters(flt: Filters): (r: bool)
    ensures !r <==> flt.(sortBy := ByRating) == NoFilters()
    ensures !r ==> forall f, q :: Matches(f, q, flt) == MatchesQuery(f, NormalizeQuery(q))
  {
    |flt.categories| > 0 || |flt.tags| > 0 || |flt.states| > 0
  }

  /** Without applied filters only the query restricts the result. */
  lemma NoAppliedFiltersOnlyQuery(facilities: seq<Facility>, query: string, flt: Filters, f: Facility)
    requires !HasAppliedFilters(flt)
    ensures f in FilteredFacilities(facilities, query, flt) <==>
            f in facilities && MatchesQuery(f, NormalizeQuery(query))
  {
    var r := FilteredFacilities(facilities, query, flt);
    assert f in r <==> f in facilities && Matches(f, query, flt);
    assert Matches(f, query, flt) == MatchesQuery(f, NormalizeQuery(query));
  }
}
