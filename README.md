# ScrubScout frontend core in Dafny

ScrubScout is a community review site for healthcare facilities. This project
models the client-side logic of its React frontend:

- **Search page** (`frontend/pages/Search.tsx`): the `filteredFacilities`
  filter-then-sort over the facility list, with four groups of conditions:
  a case-insensitive text query, categories (OR), tags (AND) and states (OR),
  followed by a sort by rating or by review count. Around it sits a small
  state machine with two copies of the filters. The sidebar edits the
  *draft*. "Apply Filters" copies it to the *applied* copy, "Reset" clears
  both, and the search box commits only the query.
- **Application store** (`frontend/App.tsx`): the facility, review and user
  lists and the signed-in user, with the handlers that rewrite them. Reviews
  can be added, voted on, reported, cleared, approved and rejected; adding one
  updates the facility rating. Users can sign up, verify, log in, log out and
  update their profile.
- **Moderation page** (`frontend/pages/Moderation.tsx`): the "AI flags" column
  and the "user reports" column over the review list, and the handler each
  card button is wired to.

Modules:

- `Seqs`: the generic `filter`, conditional `map` and add-or-remove toggle.
- `Text`: JavaScript `trim`, `toLowerCase`, `includes` and `split('@')[0]`.
- `Domain`: the records of `frontend/types.ts`.
- `SearchEngine`: the pure part of the search page.
- `SearchPage`: the search page's ten state fields, as a class.
- `Ratings`: the rating update.
- `ReviewActions`: the five per-review handlers.
- `Accounts`: the registry operations.
- `Moderation`: the two columns and the button wiring.
- `AppStore`: the application state, as a class.
- `SampleData`: worked values from the sample catalogue.

Facility ratings are integer tenths of a star (4.8 is 48). `toFixed(1)` is
modelled as rounding the exact rational mean to the nearest tenth, halves
rounded up.

Adding a category or a state to the selection might be expected never to
shrink the result. The code (`Search.tsx:63-64`, `69-70`) treats an empty
selection as "no restriction", so selecting the first category can shrink it:

- `MoreCategoriesNeverShrink` and `MoreStatesNeverShrink` hold once the
  selection is non-empty;
- `FirstCategoryCanShrink` shows the empty case.

## Model

| member | source | states |
|---|---|---|
| Seqs.Filter | frontend/pages/Search.tsx:50-73 | `filter` keeps exactly the elements satisfying the predicate and never lengthens the list |
| Seqs.FilterCount | frontend/pages/Search.tsx:50-73 | every kept element occurs as often as in the input; rejected elements do not occur |
| Seqs.FilterIsSubsequence | frontend/pages/Moderation.tsx:13-14 | `filter` keeps the input order: its result is a subsequence of the input |
| Seqs.FilterMonotone | frontend/pages/Search.tsx:63-72 | a weaker predicate keeps at least as many copies of every element |
| Seqs.FilterDisjointLength | frontend/pages/Moderation.tsx:25-28 | two predicates that never hold together select at most the whole input between them |
| Seqs.MapWhere | frontend/App.tsx:141-148 | the conditional `map` replaces exactly the matching elements, keeping length and order |
| Seqs.Toggle | frontend/pages/Search.tsx:80-94 | the add-or-remove updater: the item is in the result exactly when it was not in the list; other items keep their membership |
| Seqs.ToggleKeepsNoDup | frontend/pages/Search.tsx:80-94 | a toggle never introduces a duplicate |
| Seqs.ToggleTwice | frontend/pages/Search.tsx:80-94 | toggling the same item twice restores the selection as a set, and the exact list when the item was absent |
| Seqs.SameLengthContainedIsSetEqual | frontend/pages/Search.tsx:96-103 | on duplicate-free lists, "same length and every element contained" is exactly set equality |
| Text.TrimStart | frontend/pages/Search.tsx:53 | removes exactly the leading ECMAScript white space: the result is a suffix that does not start with white space |
| Text.TrimEnd | frontend/pages/Search.tsx:53 | removes exactly the trailing white space: the result is a prefix that does not end with white space |
| Text.Trim | frontend/pages/Search.tsx:53 | `trim` returns the part of the input that has only white space before and after it and none at either of its own ends; it is empty exactly for a white-space-only input |
| Text.LowerChar | frontend/pages/Search.tsx:53 | an upper-case letter A-Z becomes its lower-case letter (code point + 32); every other character is kept, so no upper-case letter remains and white space stays white space |
| Text.Lower | frontend/pages/Search.tsx:53-61 | `toLowerCase` lower-cases each character and keeps the length |
| Text.LowerIdempotent | frontend/pages/Search.tsx:53-61 | lower-casing twice is lower-casing once |
| Text.LowerTrimCommute | frontend/pages/Search.tsx:53 | trimming and lower-casing commute |
| Text.IncludesIffOccurs | frontend/pages/Search.tsx:57-61 | `includes(q)` holds exactly when `q` occurs at some position |
| Text.Includes | frontend/pages/Search.tsx:57-61 | `includes` of the empty string always holds, and a match needs a query no longer than the text; `IncludesIffOccurs` states its full meaning |
| Text.BeforeAt | frontend/App.tsx:56 | `split('@')[0]` is the longest prefix without '@', ended by the first '@' when there is one |
| SearchEngine.NormalizeQuery | frontend/pages/Search.tsx:53 | the normalized query is the trimmed query lower-cased character by character: no upper-case letter, no white space at either end, and empty exactly for a blank query |
| SearchEngine.NormalizeIgnoresCase | frontend/pages/Search.tsx:53 | queries equal up to letter case normalize to the same string |
| SearchEngine.MatchesQuery | frontend/pages/Search.tsx:55-61 | the text condition; its meaning is stated by `QueryMatchMeaning` and `BlankQueryMatchesAll` |
| SearchEngine.MatchesCategory | frontend/pages/Search.tsx:63-64 | the category condition (OR, empty selection admits all); specified by `MoreCategoriesNeverShrink` and `FirstCategoryCanShrink` |
| SearchEngine.MatchesTags | frontend/pages/Search.tsx:66-67 | the tag condition (AND); specified by `MoreTagsNeverGrow` |
| SearchEngine.MatchesStates | frontend/pages/Search.tsx:69-70 | the state condition (OR, empty selection admits all); specified by `MoreStatesNeverShrink` |
| SearchEngine.Matches | frontend/pages/Search.tsx:52-73 | the `filter` callback, the conjunction of the four conditions; `FilteredFacilities` keeps exactly the facilities satisfying it |
| SearchEngine.Insert | frontend/pages/Search.tsx:74-77 | inserting into a list sorted by descending key keeps it sorted and adds exactly one element |
| SearchEngine.SortDesc | frontend/pages/Search.tsx:74-77 | the sort returns a permutation of its input that is non-increasing in the key |
| SearchEngine.FilteredFacilities | frontend/pages/Search.tsx:50-78 | the result holds exactly the facilities meeting all four condition groups, non-increasing in rating or review count |
| SearchEngine.FilteredFacilitiesCounts | frontend/pages/Search.tsx:50-73 | each admitted facility appears as often as in the input; the others do not appear |
| SearchEngine.SortStable | frontend/pages/Search.tsx:74-77 | facilities with equal keys keep their input order |
| SearchEngine.QueryIsCaseInsensitive | frontend/pages/Search.tsx:53-61 | two queries equal up to letter case give the same results |
| SearchEngine.QueryMatchMeaning | frontend/pages/Search.tsx:55-61 | a non-empty query matches exactly when it occurs in the lower-cased name, address, city, state or some tag |
| SearchEngine.BlankQueryMatchesAll | frontend/pages/Search.tsx:53-56 | an empty or white-space-only query matches every facility |
| SearchEngine.NothingSelectedKeepsAll | frontend/pages/Search.tsx:50-78 | with a blank query and no filters the result is a permutation of the whole list |
| SearchEngine.ResultsMonotone | frontend/pages/Search.tsx:63-72 | filters admitting fewer facilities give a sub-multiset of the results |
| SearchEngine.MoreTagsNeverGrow | frontend/pages/Search.tsx:66-67 | selecting more tags never adds a result (AND) |
| SearchEngine.MoreCategoriesNeverShrink | frontend/pages/Search.tsx:63-64 | once a category is selected, selecting more never removes a result (OR) |
| SearchEngine.MoreStatesNeverShrink | frontend/pages/Search.tsx:69-70 | once a state is selected, selecting more never removes a result (OR) |
| SearchEngine.FirstCategoryCanShrink | frontend/pages/Search.tsx:63-64 | selecting the first category can drop a facility that no selection admitted |
| SearchEngine.DraftChanged | frontend/pages/Search.tsx:96-103 | an untouched draft never enables "Apply" and a changed sort key always does; `DraftChangedIffSetsDiffer` gives its exact meaning |
| SearchEngine.DraftChangedIffSetsDiffer | frontend/pages/Search.tsx:96-103 | on duplicate-free lists `hasDraftChanges` holds exactly when the sort key or one selection, as a set, differs |
| SearchEngine.HasAppliedFilters | frontend/pages/Search.tsx:105-106 | false exactly when the applied filters equal the fresh ones apart from the sort key, and then only the query decides a match |
| SearchEngine.NoAppliedFiltersOnlyQuery | frontend/pages/Search.tsx:105-106 | without applied filters only the query restricts the result |
| SearchPage.SearchState.constructor | frontend/pages/Search.tsx:13-25 | both queries start as the initial query; both filter copies start empty and sorted by rating |
| SearchPage.SearchState.Results | frontend/pages/Search.tsx:50-78 | the shown list holds exactly the facilities matching the applied query and filters, sorted by the applied key |
| SearchPage.SearchState.HasDraftChanges | frontend/pages/Search.tsx:96-103 | enables "Apply Filters"; `DraftChanged` on the two copies, specified by `DraftChangedIffSetsDiffer` |
| SearchPage.SearchState.HasAppliedFilters | frontend/pages/Search.tsx:105-106 | shows "Reset"; `SearchEngine.HasAppliedFilters` of the applied copy |
| SearchPage.SearchState.SetQueryInput | frontend/pages/Search.tsx:225 | typing changes only the draft query; the shown results stay the same |
| SearchPage.SearchState.SetDraftSortBy | frontend/pages/Search.tsx:208 | choosing a sort changes only the draft sort key; the shown results stay the same |
| SearchPage.SearchState.ToggleCategory | frontend/pages/Search.tsx:80-86 | toggles the category in the draft only, keeping it duplicate-free; the applied state, the queries and the shown results stay |
| SearchPage.SearchState.ToggleTag | frontend/pages/Search.tsx:88-90 | toggles the tag in the draft only, keeping it duplicate-free; the shown results stay |
| SearchPage.SearchState.ToggleState | frontend/pages/Search.tsx:92-94 | toggles the state in the draft only, keeping it duplicate-free; the shown results stay |
| SearchPage.SearchState.ApplyFilters | frontend/pages/Search.tsx:27-32 | the applied filters become the draft, the queries stay, and afterwards `hasDraftChanges` is false |
| SearchPage.SearchState.ResetFilters | frontend/pages/Search.tsx:34-44 | both filter copies become empty and sorted by rating; the queries stay; neither button stays enabled |
| SearchPage.SearchState.RunSearch | frontend/pages/Search.tsx:46-48 | only the applied query changes, to the typed one |
| SearchPage.ToggleCategoryEnablesApply | frontend/pages/Search.tsx:80-103 | from an applied draft one category toggle enables "Apply", and a second toggle disables it again |
| SearchPage.ToggleTagEnablesApply | frontend/pages/Search.tsx:88-103 | the same for a tag |
| SearchPage.ToggleStateEnablesApply | frontend/pages/Search.tsx:92-103 | the same for a state |
| SearchPage.SortChangeEnablesApply | frontend/pages/Search.tsx:96-97 | from an applied draft, a new sort key enables "Apply" exactly when it differs from the applied one |
| Ratings.RoundHalfUp | frontend/App.tsx:145 | `toFixed` rounding: the result n satisfies n - 1/2 <= num/den < n + 1/2 |
| Ratings.RoundHalfUpUnique | frontend/App.tsx:145 | that window holds exactly one integer |
| Ratings.NewRating | frontend/App.tsx:143-145 | the new rating is the exact mean of old total and new stars over the new count, rounded to the nearest tenth, halves up |
| Ratings.NewRatingBetween | frontend/App.tsx:143-145 | the new mean lies between the old rating and the new review's stars |
| Ratings.NewRatingOnScale | frontend/App.tsx:143-145 | a rating on the 0-5 scale stays on it after a 1-5 star review |
| Ratings.FirstReviewSetsRating | frontend/App.tsx:143-145 | with no previous reviews the rating becomes the review's stars |
| Ratings.AgreeingReviewKeepsRating | frontend/App.tsx:143-145 | a review equal to the current mean leaves it unchanged |
| Ratings.Rated | frontend/App.tsx:142-146 | the count grows by one, the rating becomes the rounded new mean, and all other fields stay |
| Ratings.UpdateFacilityRating | frontend/App.tsx:140-149 | the facilities with the id are rated and all others kept, with length and order unchanged |
| Ratings.UpdateCountsOneReview | frontend/App.tsx:140-149 | the total review count grows by the number of facilities carrying the id |
| ReviewActions.Apply | frontend/App.tsx:151-170 | per action, which fields change and how: votes only by a vote; status only by approve or reject; report flag raised by report and lowered by clear or reject; reason set by report and removed by clear but kept by reject |
| ReviewActions.UpdateReviews | frontend/App.tsx:151-170 | the action applies to exactly the reviews with the id; length and order are kept |
| ReviewActions.UnknownIdChangesNothing | frontend/App.tsx:151-170 | an id no review carries leaves the list unchanged |
| ReviewActions.ReportOverwritesReason | frontend/App.tsx:155-156 | re-reporting overwrites the reason |
| ReviewActions.ClearUndoesReport | frontend/App.tsx:155-162 | clearing a fresh report leaves the review with the flag explicitly lowered, no reason, and every other field as before |
| ReviewActions.VoteCommutes | frontend/App.tsx:151-170 | a vote commutes with every other action |
| ReviewActions.TotalVotesAfter | frontend/App.tsx:151-153 | a vote adds one helpful vote per review with the id; no other action changes the total |
| Accounts.FindByEmail | frontend/App.tsx:82 | `find` returns a registered user with the e-mail, or nothing exactly when none has it |
| Accounts.FindByEmailFirst | frontend/App.tsx:82 | the user found is the first with that e-mail |
| Accounts.FindUnique | frontend/App.tsx:74 | with unique e-mails, `find` returns the one user with that e-mail |
| Accounts.NewUser | frontend/App.tsx:53-60 | the new account has the given id and e-mail, the part of the e-mail before the first '@' as display name, the USER role, no verification, and no licence number or avatar |
| Accounts.Signup | frontend/App.tsx:47-61 | a taken e-mail leaves the registry unchanged; otherwise exactly `NewUser(id, email)` is appended: an unverified USER named after the part before '@' |
| Accounts.SignupKeepsUnique | frontend/App.tsx:47-61 | signup keeps e-mails unique, and ids too when the new id is fresh |
| Accounts.Verify | frontend/App.tsx:69-71 | only users with the e-mail become verified; every other field and user stays |
| Accounts.VerifyKeepsUnique | frontend/App.tsx:69-71 | verification keeps e-mails and ids unique |
| Accounts.Login | frontend/App.tsx:81-95 | login yields a registered, verified user with the e-mail, and nothing when the e-mail is unknown or unverified |
| Accounts.NewUserCannotLogIn | frontend/App.tsx:53-60 | a user who has just signed up cannot log in before verifying |
| Accounts.VerifyThenLogin | frontend/App.tsx:68-92 | after verifying a registered e-mail, login succeeds with that user, now verified |
| Accounts.Merge | frontend/App.tsx:105 | for each of the eight fields, the merged user takes the value the update carries and otherwise keeps its own; an empty update changes nothing |
| Accounts.UpdateProfile | frontend/App.tsx:108 | exactly the users with the current id become the merged user |
| Accounts.UpdateProfileKeepsUnique | frontend/App.tsx:103-111 | an update that keeps id and e-mail free keeps both uniqueness invariants and leaves the merged user registered |
| Moderation.PendingOrFlagged | frontend/pages/Moderation.tsx:13 | the AI column holds exactly the PENDING or FLAGGED reviews |
| Moderation.ReportedReviews | frontend/pages/Moderation.tsx:14 | the report column holds exactly the reported APPROVED reviews |
| Moderation.QueuesDisjoint | frontend/pages/Moderation.tsx:13-28 | no review is in both columns, and the two header counts add up to at most the number of reviews |
| Moderation.QueuesKeepOrder | frontend/pages/Moderation.tsx:13-14 | each column lists its reviews in input order |
| Moderation.QueueCounts | frontend/pages/Moderation.tsx:13-14 | each column holds every copy of a qualifying review and nothing else |
| Moderation.RejectedInNoQueue | frontend/pages/Moderation.tsx:13-14 | a rejected review is in neither column, whatever its report flag |
| Moderation.ButtonAction | frontend/pages/Moderation.tsx:42-131 | "Permanent Ban" rejects in both columns; the approve-side button approves in the AI column and only clears the report in the report column |
| Moderation.ButtonLabel | frontend/pages/Moderation.tsx:125-131 | each caption names its handler: "Dismiss Report" exactly for clearing a report, "Force Approve" for approving, "Permanent Ban" for rejecting |
| Moderation.DismissKeepsStatus | frontend/pages/Moderation.tsx:66-73 | "Dismiss Report" keeps the status and lowers the report flag |
| Moderation.ButtonTakesOffPanel | frontend/pages/Moderation.tsx:121-131 | after any button, the card's review no longer qualifies for the card's column |
| Moderation.ButtonRemovesFromPanel | frontend/pages/Moderation.tsx:42-73 | after any button, the card's column is its former contents without the reviews carrying the card's id |
| Moderation.BanClearsBothPanels | frontend/pages/Moderation.tsx:47-71 | a ban removes the review from both columns |
| Moderation.ForceApproveMovesReported | frontend/pages/Moderation.tsx:13-14 | "Force Approve" on a flagged, reported review moves it from the AI column to the report column |
| Moderation.ReportEntersQueue | frontend/pages/Moderation.tsx:14 | a reported review enters the report column exactly when it is APPROVED |
| AppStore.SeedAdmin | frontend/App.tsx:31-38 | the seed account is an administrator who can log in at once |
| AppStore.NewReview | frontend/App.tsx:124-135 | the new review has the given id, facility, stars, title, content and timestamp, the author's id and name, status APPROVED, no votes, no report and no moderation reason, and so is in neither moderation column |
| AppStore.NewReviewInNoQueue | frontend/App.tsx:123-136 | prepending a new, unreported APPROVED review leaves both moderation columns unchanged |
| AppStore.ReviewsFor | frontend/App.tsx:201 | the detail page lists exactly the reviews of the facility |
| AppStore.NewReviewHeadsItsFacility | frontend/App.tsx:136 | a new review heads its facility's list and leaves the other facilities' lists unchanged |
| AppStore.Store.constructor | frontend/App.tsx:14-39 | the store starts with the catalogue, the seed administrator and nobody signed in |
| AppStore.Store.Signup | frontend/App.tsx:47-66 | the registry becomes `Signup`'s; a new e-mail awaits verification; the invariants hold |
| AppStore.Store.Verify | frontend/App.tsx:68-79 | the registry becomes `Verify`'s; the user found is signed in and verified; nothing awaits verification |
| AppStore.Store.Login | frontend/App.tsx:81-95 | returns `Login`'s answer and signs that user in; an unverified user is sent to verification; the role is ignored |
| AppStore.Store.Logout | frontend/App.tsx:97-101 | nobody is signed in; all else stays |
| AppStore.Store.UpdateProfile | frontend/App.tsx:103-111 | a no-op without a signed-in user; otherwise the user and their registry entry become the merge |
| AppStore.Store.UpdateFacilityRating | frontend/App.tsx:140-149 | the facilities become `UpdateFacilityRating`'s; nothing else changes |
| AppStore.Store.AddReview | frontend/App.tsx:123-138 | exactly one new review by the signed-in user (`NewReview`: APPROVED, with the given stars) is prepended, its facility is rated with those stars, and both moderation columns stay as they were |
| AppStore.Store.UpdateReviewsWith | frontend/App.tsx:151-170 | the shared shape of the five review handlers: the reviews become `UpdateReviews` of the old ones; nothing else changes |
| AppStore.Store.VoteReview | frontend/App.tsx:151-153 | votes the reviews with the id; the total grows by their number |
| AppStore.Store.ReportReview | frontend/App.tsx:155-158 | reports the reviews with the id with the given non-empty reason |
| AppStore.Store.ClearReport | frontend/App.tsx:160-162 | clears the report of the reviews with the id |
| AppStore.Store.ApproveReview | frontend/App.tsx:164-166 | approves the reviews with the id |
| AppStore.Store.RejectReview | frontend/App.tsx:168-170 | rejects the reviews with the id |
| AppStore.Store.PressModerationButton | frontend/App.tsx:225-232 | an administrator's button press runs its wired handler and removes the card's review from that column |
| SampleData.CedarsNewReview | frontend/src/constants.tsx:20-21 | Cedars-Sinai, at 4.8 over 45 reviews, stays at 4.8 after a 5-star review and drops to 4.7 after a 1-star review |
| SampleData.CedarsRated | frontend/src/constants.tsx:20-21 | the same on a facility record, with the count becoming 46 |

## Left out

- Persistence to `localStorage`, `alert` messages, page navigation (`currentPage`, `selectedFacilityId`, `handleSearch`, `handleFacilityClick`) and all markup are I/O or presentation and are not modelled. The store's initial state is the no-saved-data path; restoring a saved registry or user is not modelled.
- `Math.random()` ids and `new Date()` timestamps are method parameters.
- Ratings.RoundHalfUp: models `toFixed(1)` on the exact rational mean, not on binary floating point. Where the float mean falls just below a true half, the source may round down where the model rounds up.
- Text.LowerChar: maps only the ASCII letters A-Z; the full Unicode case mapping of `toLowerCase` is not modelled.
- AppStore.Store.Signup: requires the new id to differ from every registered id. The source draws it at random and does not check it.
- AppStore.Store.UpdateProfile: keeps the uniqueness invariant only for updates that keep the id and do not take another user's e-mail. The source does not prevent such updates.
- Accounts.ProfileUpdate: a `Partial<User>` carrying an explicit `undefined` for a required field is not modelled.
- AppStore.Store.AddReview: requires a verified signed-in user, and the moderation handlers (`ClearReport`, `ApproveReview`, `RejectReview`, `PressModerationButton`) require an administrator. These are the guards of their only callers (`PlaceDetail.tsx:35` and `App.tsx:225`). `ReportReview` requires the non-empty reason its caller checks (`PlaceDetail.tsx:65`).
- Ratings.NewRatingOnScale: assumes 1 to 5 stars, the range of the star widget. That widget is not part of this model.
- The search results on the sample catalogue (e.g. the default order Mayo, Cedars-Sinai, New York-Presbyterian) are not stated as lemmas. The full sample records, with their long text fields, are not reproduced as values.
- The search page keeps `initialQuery` only at construction, as React's `useState` does; later changes to the prop are not modelled.
- `Home.tsx`, `Profile.tsx`, `Auth.tsx` timers, the services and the backend are not part of this model.
