# jrich_saas matching core in Dafny

This project models the logic under the jrich_saas real-estate matching front end. The front end is a Next.js application over a hosted Postgres (Supabase) database. It pairs founders (people looking for a shop) with properties (shops on offer). The logic it models:

- **Property and founder queries.** Each query chain (`fetchProperties`, its earlier version, `propertyService.getList`, `founderService.getList`) is a sequence of PostgREST filter steps, built in source order (module `Postgrest`). Every step is added only when its argument is truthy. Each chain gets an "if and only if" lemma against a direct reading on the record's fields. Paging is a window `[from, to]` over an ordered listing, together with the page-count formulas.
- **The `matchings` table** (module `MatchingService`). It is a class over `seq<Matching>` whose invariant is that each `(founder_id, property_id)` pair occurs once and matching ids are unique. The model covers the upsert with ignore-duplicates, delete by pair, flag and status updates, the join normalisation of `getByFounderId`, and the auto-match predicate.
- **UI state logic:**
  - the filter panel's edits, presets and badge count (`PropertyFilterPanel`);
  - the founder picker's recent list and search (`FounderSelector`);
  - the two match pages' handlers: selection, save, cancel, flag toggling and paging (`MatchPage`, one class for both pages);
  - the property registration form (`CreateProperty`);
  - the countdown on the match page (`Countdown`).

Database answers are inputs. Where the database chooses an order (`order(...)` ties), the caller passes the rows as `ordered`, and a precondition requires them to be a sorted permutation of the selected rows. Clock readings (`new Date().toISOString()`, `getTime()`) are parameters. A database error is a `storeFails` flag; when it is set, the table is unchanged.

The code itself differs between its paths in a few places, and the model keeps each difference:

- `autoMatch` saves through `saveMatchings`, which writes method `'수동'` (src/services/matchingService.ts:70). The match pages build their own payload with method `'자동'` (src/pages/match/Old_match.tsx:196, src/app/match/old_page.tsx:189). So auto-matched rows are stored as `'수동'`, while hand-picked rows saved from the pages are stored as `'자동'`. `MatchPage.PagePayloadIsAuto` states the difference.
- The auto-match area band applies only when the founder's area is truthy, so a founder area of 0 imposes no band.
- `propertyService.getList` excludes no closed listings and reports 0 pages for an empty result, while `fetchProperties` reports at least 1 (`PropertyService.NoBaselineExclusion`, `PropertyService.ClosedListingReturned`).

## Model

| member | source | states |
|---|---|---|
| FetchProperties.QueryMeaning | src/lib/fetchProperties.ts:48-118 | A row passes the whole chain iff all of these hold: its status is outside the baseline set (plus the extra statuses when non-empty); a non-empty keyword hits one of the five columns; every truthy range bound holds; a non-empty floor list contains its floor; a non-empty sido or sigungu equals its own |
| FetchProperties.KeywordOpMeaning | src/lib/fetchProperties.ts:54-65 | The keyword OR holds iff store_name, beopjeongdong, sigungu, notes or property_code contains the keyword, ignoring case; NULL columns never match |
| FetchProperties.RangeStepsMeaning | src/lib/fetchProperties.ts:69-98 | The min and max steps of one column pass iff each truthy bound holds; a NULL column fails a bound that applies |
| FetchProperties.RangedOpsMeaning | src/lib/fetchProperties.ts:48-98 | The baseline exclusion, keyword and four range steps together mean baseline status excluded, keyword hit and all four ranges satisfied |
| FetchProperties.PlaceOpsMeaning | src/lib/fetchProperties.ts:101-111 | Floors apply set membership only when non-empty; sido and sigungu apply equality only when non-empty |
| FetchProperties.ExcludeOpMeaning | src/lib/fetchProperties.ts:114-118 | A non-empty excludeStatus removes rows whose status is in the baseline set or the extra list; an absent or empty one adds nothing |
| FetchProperties.Listing | src/lib/fetchProperties.ts:48-118 | The rows the query counts are exactly the table's rows that are `Listed` |
| FetchProperties.TotalPages | src/lib/fetchProperties.ts:129 | `max(1, ceil(count/pageSize))` is at least 1, its pages hold all `count` rows, and one page fewer would not |
| FetchProperties.ToResult | src/lib/fetchProperties.ts:126-130 | Present data is returned as the items and a present count as the total; missing data gives no items and a missing count gives total 0 and one page; totalPages is `TotalPages(total, pageSize)`, at least 1, covering the total |
| FetchProperties.PageWindow | src/lib/fetchProperties.ts:45-46 | The page holds at most pageSize rows, and its k-th row is the listing's row `(page-1)*pageSize + k` |
| FetchProperties.PageWindowSorted | src/lib/fetchProperties.ts:121 | A page cut from a listing sorted by a key is itself sorted by that key |
| FetchProperties.ConsecutivePagesAdjacent | src/lib/fetchProperties.ts:45-46 | `to - from + 1 == pageSize`; the next page starts at `to + 1`; a page within the listing is full; two consecutive pages together are the window over both |
| FetchProperties.RowOnItsPage | src/lib/fetchProperties.ts:45-46 | Row i is on page `i / pageSize + 1`, at position `i % pageSize`, and that page is within totalPages, so paging 1..totalPages visits every row |
| FetchProperties.PagePastLastIsEmpty | src/lib/fetchProperties.ts:45-46 | In the window model, a page number past totalPages gives an empty window |
| FetchProperties.Fetch | src/lib/fetchProperties.ts:37-130 | With the defaults (page 1, 20 rows, no keyword, received_at descending, empty filter), items are the page window of the ordered listing, total is the listing's size, and totalPages is `TotalPages(total, pageSize)` |
| FetchProperties.FetchReturnsListed | src/lib/fetchProperties.ts:48-51 | Every returned row is in the table and satisfies the filter, and its status is never 진행종료, 진행보류 or 계약완료, whatever the arguments |
| FetchProperties.TotalsIgnorePage | src/lib/fetchProperties.ts:126-130 | total and totalPages do not depend on the page asked for |
| FetchProperties.FortyFiveRowsExample | src/lib/fetchProperties.ts:45-46 | 45 rows at 20 per page give 3 pages; the third window holds 5 rows and the fourth window is empty |
| FetchProperties.ZeroBoundIsNoBound | src/lib/fetchProperties.ts:69-98 | A bound of 0 selects the same rows as an absent bound, NULL columns included |
| FetchProperties.NarrowingFilters | src/lib/fetchProperties.ts:48-118 | A filter that keeps every set field of another (each of the eight range bounds, floors, sido, sigungu and excludeStatus equal, or unset in the looser one), with the same keyword or one where there was none, never lists a row the looser filter excludes |
| FetchProperties.ExtraExclusionsAndKeywordNarrow | src/lib/fetchProperties.ts:54-65 | Extra excluded statuses, or a keyword, never admit a row that was excluded without them |
| FetchProperties.PanelOnlyFieldsIgnored | src/lib/fetchProperties.ts:54-118 | `filter.keyword` and `filter.business_types` change neither the query nor the rows it selects |
| FetchProperties.KeywordIgnoresCase | src/lib/fetchProperties.ts:54-65 | Under any filter, a keyword and its lower-cased form select the same rows |
| OldFetchProperties.OldListing | src/lib/Old_fetchProperties.ts:45-61 | Every row of the earlier listing is in the table and passes the baseline exclusion and keyword OR |
| OldFetchProperties.OldFetch | src/lib/Old_fetchProperties.ts:35-72 | total is the number of listed rows and the page holds at most pageSize rows |
| OldFetchProperties.EmptyFilterQueryIsOld | src/lib/Old_fetchProperties.ts:45-61 | The current chain with an empty filter is exactly the earlier chain |
| OldFetchProperties.OldFetchIsUnfilteredFetch | src/lib/Old_fetchProperties.ts:35-72 | The earlier fetch selects the same rows and returns the same page, total and totalPages as the current fetch with no filter |
| PropertyService.EqOpsMeaning | src/services/propertyService.ts:39-53 | status, sido, sigungu and businessType each require equality only when non-empty |
| PropertyService.BoundOpsMeaning | src/services/propertyService.ts:56-75 | The area, deposit and rent bounds apply `>=` and `<=` only when truthy |
| PropertyService.ServiceKeywordOpMeaning | src/services/propertyService.ts:78-85 | The keyword OR holds iff store_name, jibun, notes or property_code contains the keyword, ignoring case |
| PropertyService.ServiceQueryMeaning | src/services/propertyService.ts:34-85 | The service chain selects exactly the rows `ServiceListed` describes: no premium, floor or baseline status condition |
| PropertyService.ServiceListing | src/services/propertyService.ts:34-85 | The listing is exactly the table's rows that are `ServiceListed` |
| PropertyService.ServiceTotalPages | src/services/propertyService.ts:102-103 | `ceil(total/pageSize)` covers the total with no spare page, and is 0 exactly when the total is 0 |
| PropertyService.GetList | src/services/propertyService.ts:25-108 | With defaults page 1, 20 rows, no filters, received_at descending: items are the page window, total is the listing's size, totalPages as above |
| PropertyService.GetListReturnsListed | src/services/propertyService.ts:34-93 | Every returned row is in the table and satisfies the filters |
| PropertyService.NoBaselineExclusion | src/services/propertyService.ts:91-103 | With no filters every row is listed, and an empty result has 0 pages here but 1 in `fetchProperties` |
| PropertyService.ClosedListingReturned | src/services/propertyService.ts:34-36 | A 계약완료 listing is returned by this path and hidden by `fetchProperties` |
| PropertyService.WithCreateDefaults | src/services/propertyService.ts:146-150 | received_at and status are filled (now, 'available') only when falsy; otherwise kept; no other field changes |
| PropertyService.CreateDefaultsIdempotent | src/services/propertyService.ts:146-150 | Filling the defaults again changes nothing |
| PropertyService.SetStatus | src/services/propertyService.ts:216-224 | Only rows with that property_id get the new status; no other field or row changes |
| PropertyService.SetStatusIdempotent | src/services/propertyService.ts:216-224 | Setting the same status twice is setting it once |
| PropertyService.UpdatedStatusStillFetched | src/services/propertyService.ts:218 | None of the three accepted statuses is one `fetchProperties` hides |
| PropertyService.PropertyTable.Create | src/services/propertyService.ts:142-164 | Appends the record with its defaults under a fresh id and keeps ids unique |
| PropertyService.PropertyTable.UpdateStatus | src/services/propertyService.ts:216-224 | The rows become `SetStatus` of the old rows; ids stay unique |
| FounderService.FounderQueryMeaning | src/services/foundersSevice.ts:51-62 | A founder passes iff a non-empty status equals its status and a non-empty keyword is contained in name, contact or note, ignoring case |
| FounderService.FounderListing | src/services/foundersSevice.ts:46-62 | The listing is exactly the table's founders that are `FounderListed` |
| FounderService.GetList | src/services/foundersSevice.ts:46-84 | count is the listing's size; without both page and pageSize truthy the whole ordered listing comes back, with them the page window; every row is listed |
| FounderService.ToFounderList | src/services/foundersSevice.ts:81-84 | Missing data gives `[]`, a missing count 0; present values are kept |
| FounderService.GetListDeterministic | src/services/foundersSevice.ts:72 | With unique founder ids, ordering by founder_id leaves the database no choice: any two valid orders give the same answer |
| FounderService.GetListNewestFirst | src/services/foundersSevice.ts:65-72 | On every call, paged or not, a founder listed earlier has a founder_id at least as large |
| FounderService.WithReceivedAt | src/services/foundersSevice.ts:98-101 | received_at is set to now only when falsy; nothing else changes |
| FounderService.ReceivedAtIdempotent | src/services/foundersSevice.ts:98-101 | Filling the timestamp twice fills it once |
| FounderService.FounderTable.Create | src/services/foundersSevice.ts:94-110 | Appends the record with its timestamp under a fresh id; ids stay unique |
| MatchingService.Payload | src/services/matchingService.ts:66-75 | One row per id in input order, each with the founder, the id, the time, the given method, status '추천', score 0 and both flags false |
| MatchingService.UpsertKeepsRows | src/services/matchingService.ts:77-82 | The upsert leaves every existing row unchanged and in place |
| MatchingService.UpsertContents | src/services/matchingService.ts:77-82 | After the upsert every saved pair is present, and every row is an old row or the stored form of a draft |
| MatchingService.UpsertValid | src/services/matchingService.ts:77-82 | The upsert keeps pairs and matching ids unique |
| MatchingService.UpsertPresentIsNoop | src/services/matchingService.ts:77-82 | Upserting pairs that are all present changes nothing |
| MatchingService.UpsertIdempotent | src/services/matchingService.ts:77-82 | Saving the same ids twice equals saving once |
| MatchingService.SavedPairHeldOnce | src/services/matchingService.ts:77-82 | After the upsert each saved pair occurs exactly once |
| MatchingService.RemovePair | src/services/matchingService.ts:102-108 | Removes exactly the rows with both ids, keeps the others in order, and is a no-op for an absent pair |
| MatchingService.RemovePairKeepsKeys | src/services/matchingService.ts:102-108 | Deleting keeps pairs and matching ids unique |
| MatchingService.WithFlag | src/services/matchingService.ts:131 | The named flag gets the value; the other flag and all other fields are unchanged |
| MatchingService.SetFlag | src/services/matchingService.ts:129-132 | Only rows with that matching_id change, and only in the named flag |
| MatchingService.SetMatchingStatus | src/services/matchingService.ts:153-155 | Only rows with that matching_id change, and only in status |
| MatchingService.SetFlagTwiceRestores | src/services/matchingService.ts:129-132 | Writing a flag and then writing back its old value restores the rows |
| MatchingService.UpdatesKeepKeys | src/services/matchingService.ts:129-155 | Flag and status updates keep pairs and matching ids unique |
| MatchingService.NormalizeProperty | src/services/matchingService.ts:43-48 | An array becomes its first element or null, an object stays itself, and null stays null |
| MatchingService.NormalizeIsProjection | src/services/matchingService.ts:43-48 | Normalising a normalised value changes nothing |
| MatchingService.FounderRows | src/services/matchingService.ts:33 | Exactly the rows with that founder_id |
| MatchingService.GetByFounderId | src/services/matchingService.ts:17-50 | One normalised row per stored row of that founder, newest matched_at first; a joined property is a `properties` row with the matching's property_id, and the property is null exactly when no such row exists |
| MatchingService.BandMeaning | src/services/matchingService.ts:189-193 | With a truthy founder area the band steps pass iff `0.8*area <= property.area <= 1.2*area` |
| MatchingService.AutoMatchMeaning | src/services/matchingService.ts:183-208 | A property passes the auto-match chain iff its status is 'available' and each truthy founder field holds: the area band, the deposit and rent ceilings, and equal business type |
| MatchingService.Candidates | src/services/matchingService.ts:183-210 | The candidates are exactly the table's properties that satisfy the auto-match predicate |
| MatchingService.AutoMatchExample | src/services/matchingService.ts:183-208 | For a founder with area 100, deposit 5000, rent 200 and business type 카페, the predicate reads as status available, area 80..120, deposit at most 5000, rent at most 200 and business type 카페 |
| MatchingService.OpenFounderGetsAllAvailable | src/services/matchingService.ts:188-208 | A founder with no truthy criteria matches every available property |
| MatchingService.FindFounder | src/services/matchingService.ts:173-180 | `.single()`: a founder held under the id by exactly one row is found, and is that row; no row, or two rows, with the id give nothing; a found founder is in the table with that id |
| MatchingService.FindFounderInUniqueTable | src/services/matchingService.ts:173-180 | In a founders table with unique ids, every founder is found by its own id, so auto-matching an existing founder does not fail |
| MatchingService.MatchingTable.SaveMatchings | src/services/matchingService.ts:60-92 | The rows become the upsert of the payload; the table invariant is kept |
| MatchingService.MatchingTable.DeleteMatching | src/services/matchingService.ts:97-118 | The rows become `RemovePair` of the old rows; the invariant is kept |
| MatchingService.MatchingTable.UpdateFlag | src/services/matchingService.ts:123-142 | The rows become `SetFlag` of the old rows; the invariant is kept |
| MatchingService.MatchingTable.UpdateStatus | src/services/matchingService.ts:147-165 | The rows become `SetMatchingStatus` of the old rows; the invariant is kept |
| MatchingService.MatchingTable.AutoMatch | src/services/matchingService.ts:170-226 | A missing founder fails and saves nothing; no candidates return `[]` and save nothing; otherwise the candidates' ids are saved with method '수동' and returned |
| PropertyFilterPanel.RangeChange | src/components/match/PropertyFilter.tsx:42-55 | Only `filter[field][type]` changes, to undefined for an empty input; the other bound, the other ranges and every other field are unchanged |
| PropertyFilterPanel.RangeLastEditWins | src/components/match/PropertyFilter.tsx:42-55 | Of two edits of the same bound only the second remains |
| PropertyFilterPanel.ZeroEntryIsCleared | src/components/match/PropertyFilter.tsx:47 | Typing 0 lists the same properties as clearing the box |
| PropertyFilterPanel.FloorToggle | src/components/match/PropertyFilter.tsx:58-68 | A selected floor is removed and an unselected one added; floors is never `[]`; distinct lists stay distinct; no other field changes |
| PropertyFilterPanel.FloorToggleTwice | src/components/match/PropertyFilter.tsx:58-62 | Toggling a floor twice restores membership, and restores the list itself when the floor was absent |
| PropertyFilterPanel.AppendPreset | src/components/match/PropertyFilter.tsx:74-81 | Exactly one preset is appended, with the name and id; earlier presets are unchanged and in order |
| PropertyFilterPanel.SaveThenApply | src/components/match/PropertyFilter.tsx:90-92 | Applying a preset just saved gives back the filter it was saved from |
| PropertyFilterPanel.RemovePreset | src/components/match/PropertyFilter.tsx:95-99 | Removes every preset with that id and keeps the rest in order; unchanged when no preset has it |
| PropertyFilterPanel.ActiveFilterCount | src/components/match/PropertyFilter.tsx:102-114 | The count is the number of active groups among the nine |
| PropertyFilterPanel.CountExtremes | src/components/match/PropertyFilter.tsx:102-114 | The count is at most 9; it is 0 iff no group is active and 9 iff all are |
| PropertyFilterPanel.RangeEditCounts | src/components/match/PropertyFilter.tsx:104 | A non-zero bound typed into any of the four unset ranges (area, deposit, rent, premium) adds one to the count |
| PropertyFilterPanel.ClearingRangeUncounts | src/components/match/PropertyFilter.tsx:104 | Clearing the last truthy bound of any of the four ranges takes one off the count |
| PropertyFilterPanel.FloorToggleCounts | src/components/match/PropertyFilter.tsx:108 | A floor toggle moves the count by at most one, and adding a floor makes the floor group active |
| PropertyFilterPanel.ZeroRangeNotCounted | src/components/match/PropertyFilter.tsx:104-107 | A range whose bounds are both 0 or undefined does not count |
| PropertyFilterPanel.PresetPanel.constructor | src/components/match/PropertyFilter.tsx:34-39 | The stored presets, or none, are loaded; the name box is empty and closed |
| PropertyFilterPanel.PresetPanel.SavePreset | src/components/match/PropertyFilter.tsx:71-87 | Nothing changes for a blank name; otherwise one preset is appended, the list is stored, and the name box is cleared and closed |
| PropertyFilterPanel.PresetPanel.DeletePreset | src/components/match/PropertyFilter.tsx:95-99 | The presets become `RemovePreset` of the old list and are stored |
| Seqs.Toggle | src/pages/match/Old_match.tsx:176-180 | The id is in the result iff it was not in the input; other members are unchanged; distinct lists stay distinct |
| Seqs.ToggleTwice | src/pages/match/Old_match.tsx:176-180 | Toggling twice restores membership, and restores the list when the id was absent |
| FounderSelector.SelectRecent | src/components/match/FounderSelector.tsx:110-113 | The new list is non-empty, at most 10 long, and starts with the chosen id |
| FounderSelector.SelectShape | src/components/match/FounderSelector.tsx:110-113 | The list is the chosen id followed by at most nine of the other ids, none of them the chosen one |
| FounderSelector.SelectedOnce | src/components/match/FounderSelector.tsx:110-112 | The chosen id occurs exactly once |
| FounderSelector.SelectKeepsOrder | src/components/match/FounderSelector.tsx:110-112 | Behind the chosen id, the others keep their relative order |
| FounderSelector.SelectKeepsDistinct | src/components/match/FounderSelector.tsx:110-113 | A duplicate-free list stays duplicate-free |
| FounderSelector.SelectIdempotent | src/components/match/FounderSelector.tsx:110-113 | Choosing the same founder twice gives the same list as once |
| FounderSelector.SelectKeepsAllUnderCap | src/components/match/FounderSelector.tsx:110-113 | Under the cap no id is lost: the list holds the chosen id and every old one |
| FounderSelector.FindById | src/components/match/FounderSelector.tsx:76 | A found row is in the data with that id; no row means no such id |
| FounderSelector.InStoredOrder | src/components/match/FounderSelector.tsx:75-77 | Found founders in stored-id order; ids with no row are dropped, and every id with a row is represented |
| FounderSelector.LoadRecent | src/components/match/FounderSelector.tsx:58-79 | No query when no id is stored; otherwise at most 5 founders from the table, in stored order, one for each of the first 5 stored ids that exists |
| FounderSelector.SearchOpMeaning | src/components/match/FounderSelector.tsx:41-43 | The search OR holds iff name, contact or business_type contains the term, ignoring case |
| FounderSelector.SearchListing | src/components/match/FounderSelector.tsx:38-43 | The matches are exactly the table's founders that hit the term |
| FounderSelector.Search | src/components/match/FounderSelector.tsx:30-48 | `searchFounders(term)` for a string term: a blank term gives `[]` with no query; otherwise the first `min(10, matches)` rows of the newest-first order, all of them hits |
| FounderSelector.Picker.constructor | src/components/match/FounderSelector.tsx:96-98 | The picker starts closed and empty, holding the stored recent ids |
| FounderSelector.Picker.SearchFounders | src/components/match/FounderSelector.tsx:30-55 | `searchFounders(term)` for a string term: the result list becomes `Search(...)`; nothing else changes |
| FounderSelector.Picker.LoadRecentFounders | src/components/match/FounderSelector.tsx:58-83 | With stored ids the recent list becomes `LoadRecent(...)`; with none nothing changes |
| FounderSelector.Picker.HandleSelect | src/components/match/FounderSelector.tsx:101-115 | The id is reported, the picker closes, the term clears and the stored list becomes `SelectRecent(...)` |
| FounderSelector.SearchEffectAsWritten | src/components/match/FounderSelector.tsx:27 | The search-term effect as written keeps the result list and switches to the search tab, whatever the term |
| FounderSelector.SearchEffect | src/components/match/FounderSelector.tsx:86-93 | The intended effect: an empty term clears the list and keeps the tab; any other term opens the search tab and shows `Search(...)`, every shown founder a hit in the table |
| FounderSelector.SearchEffectShowsHits | src/components/match/FounderSelector.tsx:86-93 | Under the intended effect, a non-blank term that some founder hits shows at least one founder |
| FounderSelector.AsWrittenSearchShowsNothing | src/components/match/FounderSelector.tsx:27 | With a founder hitting a non-blank term, the intended effect lists it while the written one keeps an empty list; with the initial empty term, the intended effect keeps the recent tab while the written one switches to search |
| FounderSelector.Picker.SearchTermEffectAsWritten | src/components/match/FounderSelector.tsx:86-93 | The picker's list and tab become `SearchEffectAsWritten` of the old ones; nothing else changes |
| FounderSelector.Picker.SearchTermEffect | src/components/match/FounderSelector.tsx:86-93 | The picker's list and tab become `SearchEffect` of the old ones for the typed term; nothing else changes |
| FounderSelector.Picker.TypeTerm | src/components/match/FounderSelector.tsx:231 | The search box sets the term and nothing else |
| FounderSelector.Picker.ChooseTab | src/components/match/FounderSelector.tsx:239-249 | A tab button sets the active tab and nothing else |
| MatchPage.ClampPage | src/pages/match/Old_match.tsx:493 | The typed page lands in `[1, totalPages]`, and an in-range page is kept |
| MatchPage.PrevPage | src/pages/match/Old_match.tsx:482 | Prev never goes below 1 and goes back one page from above 1 |
| MatchPage.NextPage | src/pages/match/Old_match.tsx:502 | Next never exceeds totalPages and goes forward one page below it |
| MatchPage.PagingStaysInRange | src/app/match/old_page.tsx:348-368 | From a page in range, prev, next and a typed page all stay in `[1, totalPages]` |
| MatchPage.PrevNextInverse | src/pages/match/Old_match.tsx:482-502 | Next undoes prev away from page 1, and prev undoes next away from the last page |
| MatchPage.FindRow | src/pages/match/Old_match.tsx:239 | A found row is on screen with that matching_id; no row means none has it |
| MatchPage.SetRowFlag | src/pages/match/Old_match.tsx:252-256 | Only the rows with that matching_id change, and only in the flag |
| MatchPage.ToggleRows | src/pages/match/Old_match.tsx:239-256 | An unknown matching_id leaves the rows unchanged; a known one sets, on every row with that id, the flag to `!(flag ?? false)` of the row `find` returned |
| MatchPage.ToggleRowsMeaning | src/pages/match/Old_match.tsx:239-256 | For a known id, every row with that id gets `!(flag ?? false)` in that flag only, with its property kept, and every other row is unchanged |
| MatchPage.ToggleRowsTwice | src/app/match/old_page.tsx:237-256 | Toggling twice restores every row whose flag was set; on the toggled row a missing flag returns as false |
| MatchPage.PagePayloadIsAuto | src/pages/match/Old_match.tsx:192-201 | The pages' payload is the service's payload with method '자동' in place of '수동' |
| MatchPage.Page.constructor | src/pages/match/Old_match.tsx:60-67 | The initial state: page 1, 20 rows, no keyword, received_at descending, 1 page, nothing selected |
| MatchPage.Page.ApplyKeyword | src/pages/match/Old_match.tsx:70-73 | A new keyword resets the page to 1 and changes nothing else |
| MatchPage.Page.SetFounder | src/pages/match/Old_match.tsx:167-173 | When the founder id changes, the selection is cleared, and a loaded founder resets the page to 1 |
| MatchPage.Page.LoadProperties | src/pages/match/Old_match.tsx:137-164 | The properties, total and page count become those of the fetch for the current page, keyword and order |
| MatchPage.Page.LoadRecommended | src/pages/match/Old_match.tsx:101-134 | The recommended rows become the founder's normalised rows, newest first, each joined to its own `properties` row |
| MatchPage.Page.ToggleSelect | src/app/match/old_page.tsx:167-173 | The selection becomes `Toggle(selection, id)` and stays duplicate-free |
| MatchPage.Page.ClearSelection | src/pages/match/Old_match.tsx:267 | The save bar's clear button empties the selection and changes nothing else |
| MatchPage.Page.SetOrderBy | src/pages/match/Old_match.tsx:395-398 | A new sort column resets the page to 1 and changes nothing else |
| MatchPage.Page.ToggleAsc | src/pages/match/Old_match.tsx:407 | The sort direction flips and nothing else changes |
| MatchPage.Page.SetPageSize | src/pages/match/Old_match.tsx:419-422 | A page size chosen from 20, 50 and 100 resets the page to 1 and changes nothing else |
| MatchPage.Page.TypePage | src/app/match/old_page.tsx:359 | The page becomes `ClampPage(n, totalPages)` |
| MatchPage.Page.GoPrev | src/app/match/old_page.tsx:348 | The page becomes `PrevPage(page)` |
| MatchPage.Page.GoNext | src/app/match/old_page.tsx:368 | The page becomes `NextPage(page, totalPages)` |
| MatchPage.Page.SaveRecommendations | src/pages/match/Old_match.tsx:183-217 | No founder, no selection or a failed write changes nothing; a successful write upserts one '자동' row per selected id, clears the selection, and leaves every selected pair in the table |
| MatchPage.Page.CancelRecommendation | src/pages/match/Old_match.tsx:220-232 | Without a founder nothing happens; otherwise only that founder's pair is deleted |
| MatchPage.Page.ToggleFlag | src/pages/match/Old_match.tsx:235-257 | An unknown id changes nothing; otherwise `!(flag ?? false)` is written to the table and, on success, to that row on screen only |
| CreateProperty.HandleChange | src/pages/match/create.tsx:39-58 | The named field gets the entry, "" staying "" and other input becoming a number for the four numeric fields; every other field is unchanged |
| CreateProperty.ChangeLastWins | src/pages/match/create.tsx:39-58 | Of two edits of one field only the later is kept |
| CreateProperty.ChangesCommute | src/pages/match/create.tsx:39-58 | Edits of different fields commute |
| CreateProperty.NullIfBlank | src/pages/match/create.tsx:74-77 | Only the empty entry becomes null; numbers, 0 included, are kept |
| CreateProperty.Submit | src/pages/match/create.tsx:60-79 | Refused with the required-fields message iff store_name or beopjeongdong is empty; otherwise the record carries received_at = now |
| CreateProperty.SubmitRoundTrip | src/pages/match/create.tsx:72-79 | The inserted record gives back the form it came from: only "" numbers became null and nothing else changed |
| CreateProperty.RequiredFieldsGuard | src/pages/match/create.tsx:24-37 | The initial form is refused, and so is any form whose store name or beopjeongdong is cleared |
| CreateProperty.CreatePage.constructor | src/pages/match/create.tsx:24-37 | The initial form: everything empty, status '접수'; nothing inserted |
| CreateProperty.CreatePage.Change | src/pages/match/create.tsx:39-58 | The form becomes `HandleChange` of the old form |
| CreateProperty.CreatePage.HandleSubmit | src/pages/match/create.tsx:60-95 | A refused form inserts nothing; a failing insert reports the error and inserts nothing; otherwise exactly the submitted record is inserted |
| Countdown.Tick | src/app/match/page.tsx:74-82 | Expired iff the distance is negative; otherwise minutes and seconds are below 60 and the parts add up to the distance, short of under a second |
| Countdown.Recompose | src/app/match/page.tsx:80-82 | `h*3600000 + m*60000 + s*1000 <= d < that + 1000`, with m and s below 60 |
| Countdown.TickOfExactTime | src/app/match/page.tsx:80-82 | A distance of h hours, m minutes, s seconds and under a second more splits back into exactly h, m and s |
| Countdown.KeepsRunning | src/app/match/page.tsx:74-78 | The timer keeps running exactly while the tick is not expired |
| Countdown.ParseNatToString | src/app/match/page.tsx:84 | The decimal digits of a number read back as that number |
| Countdown.DisplayDistinguishesExpiry | src/app/match/page.tsx:75-84 | A running tick never shows "만료됨", and its text starts with the hours in decimal |

## Findings

| source | as written | input that shows it | evidently intended | confidence | as-written member | corrected member |
|---|---|---|---|---|---|---|
| src/components/match/FounderSelector.tsx:27 | `useDebounce(searchTerm, 300)` hands the term to a hook whose first parameter is a callback (src/hooks/useDebounce.ts:3-25), so `debouncedSearch` is a function. `if (debouncedSearch)` always holds, `searchFounders(debouncedSearch)` fails at `term.trim()` before any query, and only `setActiveTab("search")` takes effect | a founder named "kim" and the typed term "kim": the list stays empty; on mount, with the empty term, the tab switches from "recent" to "search" | the effect searches the debounced typed term: an empty term clears the list, any other term shows `searchFounders(term)` on the search tab | high; not executed | FounderSelector.AsWrittenSearchShowsNothing | FounderSelector.SearchEffect |

## Left out

- Supabase transport, the error of `.maybeSingle()` on several rows, `console.error` and alerts (the exactly-one rule of `.single()` is `MatchingService.FindFounder`): the tables are in-memory sequences. A failed call is a `storeFails` flag that leaves the table unchanged, or it is not modelled where the source only rethrows (the services' `throw`).
- The `SaveAlert` strings and `RequiredFieldsMessage` are the texts of the alerts; showing them is not modelled.
- Debouncing (`useDebounce`, `debounce1`) and the `cancelled` flags of the effects: they concern timing and async ordering.
- The reload of recommended rows after a save or cancel is the separate `MatchPage.Page.LoadRecommended`; the model does not chain them.
- `fetchFounder` and the founder read of the match pages: the loaded founder is an input to `MatchPage.Page.SetFounder`.
- Rendering files and JSX, `src/pages/properties/index.tsx`, and the mock data, confetti and timers of `src/app/match/page.tsx`: these are not part of this model.
- `propertyService.getById`, `update` and `delete`, and `founderService.getById`, `update` and `delete`: plain reads and writes by id with no logic beyond the database call.
- Floating point: numbers are exact reals, so the rounding of `area * 0.8` and `area * 1.2` at the band's edges is not modelled. `Number(value)` parsing is an input (`number`, or the typed page `n`); NaN is not modelled. The typed page is taken to be a whole number: `Number("2.5")` would store page 2.5 in the source, while `MatchPage.Page.TypePage` takes an `int`.
- `ilike`: modelled as "contains, ignoring ASCII case". Unicode case folding and the unescaped `%`, `_`, `,` and parentheses in keywords are not modelled.
- FetchProperties.Fetch: for a page past the last one, returns an empty window, while the real call fails. The query asks for `.range(from, to)` with an exact count; PostgREST answers a range that starts past the count with an error (HTTP 416), and src/lib/fetchProperties.ts:124 rethrows it. `FetchProperties.PagePastLastIsEmpty` and `FetchProperties.FortyFiveRowsExample` state facts about the window model only.
- Text sort keys (`received_at`, `matched_at`) compare by Unicode code point (`Postgrest.ValueLe`, `Strings.StrLe`), not by the database's collation. This agrees with the database's order for ISO timestamps written in the same format.
- Sort tie-breaking: the database's order is the `ordered` input, required to be a sorted permutation of the selected rows.
- Clock values (`new Date().toISOString()`, `Date.now()`, `getTime()`) are parameters. One reading (`now`) serves a whole save payload, while the source calls `new Date().toISOString()` once per row inside `.map`, so rows saved together may differ in matched_at by the time the loop takes.
- localStorage JSON: `recentFounderIds` and `filterPresets` are plain sequences. Malformed JSON is not modelled.
- `MatchingScore`, `score` and the other inert declarations of `src/services/types.ts`: they have no behaviour.
- FounderService.GetList: requires a truthy page and page size to be at least 1 (`ValidQuery`). A zero or negative page would give a negative range start, which PostgREST rejects.
- FetchProperties.Fetch: requires page and pageSize of at least 1 (`ValidArgs`), as every caller passes them. The same holds for `PropertyService.GetList` and `OldFetchProperties.OldFetch`.
- FounderSelector.Search: the search's error path (an empty list) is not modelled. `Search` and `Picker.SearchFounders` model `searchFounders` called with the typed term, which no call site does: the component passes it the debounced function (see "## Findings"). The unhandled rejection of that call is not modelled.
- PropertyFilterPanel.ActiveFilterCount: the 0-to-9 bound is proved as `PropertyFilterPanel.CountExtremes`, not in the method's own contract.
- MatchingService.MatchingTable.SaveMatchings: matching ids are drawn from a counter that advances once per payload row, including rows the upsert ignores. The database's sequence behaves the same way for ignored conflicts.
- MatchPage.Page: the `useEffect` that reloads properties is a method the caller invokes after a change of page, keyword or order. React's scheduling of effects is not modelled.
