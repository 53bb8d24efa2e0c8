# Emergency reference: a Dafny model

This project models the logic of a browser-resident emergency-medicine reference. The application lets a user:

- filter and search a bundled, read-only list of condition records;
- keep notes, favourites and recent searches;
- get autocomplete suggestions;
- compute drug doses;
- run bedside scores (CURB-65, qSOFA, GCS, Wells for PE, CHA2DS2-VASc, NIHSS, SOFA);
- see related conditions;
- back up and restore its data.

The model has one module per component, plus three helper modules:

| module | file | component |
|---|---|---|
| `Page` | page.dfy | `app/page.tsx`: the conjunctive filter, recent searches, favourites, notes, and the result cache kept in the browser's key-value storage |
| `SearchAutocomplete` | search_autocomplete.dfy | `components/SearchAutocomplete.tsx`: the four-facet suggestion scan, de-duplication, limits and keyboard handling |
| `ConditionList` | condition_list.dfy | `components/VirtualizedConditionList.tsx`: the module-level search cache, row heights, detail toggles, dose text |
| `Dosage` | dosage.dfy | `components/DosageCalculator.tsx`: `parseFloat`/`parseInt`, the unit stripping, dose with cap, volume, BMI, BSA |
| `DecisionSupport` | decision_support.dfy | `components/ClinicalDecisionSupport.tsx`: the seven scores, allergy alternatives, condition alerts and which score panels show |
| `Related` | related_conditions.dfy | `components/RelatedConditions.tsx`: the relatedness score, the ranking and the top six |
| `DataManager` | data_manager.dfy | `components/DataManager.tsx`: backup export, the import check, data statistics, clearing |
| `SearchFilters` | search_filters.dfy | `components/AdvancedSearchFilters.tsx`: the offered values and `hasActiveFilters` |
| `Text`, `Records`, `Wrappers` | text.dfy, records.dfy, wrappers.dfy | ASCII case mapping, JavaScript `trim`, `includes`, `split`, decimal rendering; the condition and treatment records; `Option` |

React components whose handlers update fields are modelled as classes:

- `Page.EmergencyReference`
- `SearchAutocomplete.Autocomplete`
- `ConditionList.SearchCache` and `ConditionList.ConditionListState`
- `Dosage.DosageCalculator`
- `DataManager.DataManagerPanel`

Their methods carry `modifies` clauses and state the whole new state. Code that computes a value is modelled as functions, with lemmas about them. Where the source loops or accumulates, the model has a method with a loop and its invariants, proved equal to a specification function:

- the `forEach` pushes of the suggestion scan;
- the `score +=` steps of Wells, CHA2DS2-VASc and the relatedness score;
- the alert pushes;
- the related-condition loop;
- the cache eviction loop.

Points where the code, not the prose description of the application, is followed:

- `handleSearch` records `term.trim()` when the trimmed term is non-empty and the raw `term.length` exceeds 2.
  - The trimmed length is not what is tested.
  - So "  a" is recorded as "a", and "ab " is not recorded.
- The suggestion effect tests `searchTerm.length < 2` on the raw term. It matches with the lower-cased term, untrimmed.
- The lengths the source tests (`term.length`, `searchTerm.length`, `word.length`, a string's `length` in the import report) count UTF-16 code units. The model counts them with `Text.JsLength`, so a character outside the Basic Multilingual Plane counts twice.
- The filter treats a term of white space as a real search term: only an empty term matches everything.
- The embolism tests in `getConditionSpecificAlerts` and `getRelevantScores` use the substring "pe". So every name containing "hyper" (hypertension, hyperkalemia) raises the embolism alerts and is shown the Wells score.
  - The model keeps this behaviour and proves it (`HyperRaisesEmbolismAlerts`, `HyperShowsWells`).
- When a stroke is also a heart condition, `getRelevantScores` pushes "chadsVasc" twice (`ChadsVascListedTwice`).
- CHA2DS2-VASc counts the 65-74 and 75+ age boxes independently, so both can add (`BothAgeBandsCount`).
- The SOFA total ranges over 0..18, while the panel prints it as "/6". This is presentation and is not modelled.

## Model

| member | source | states |
|---|---|---|
| `Page.Filter` | app/page.tsx:205-231 | the result keeps exactly the dataset conditions that match on search, specialty, age group, severity and favourites, never more than the dataset |
| `Page.FilterIsSubsequence` | app/page.tsx:205-231 | the filter result is a subsequence of the dataset: dataset order is kept |
| `Page.FilterMonotone` | app/page.tsx:205-231 | a query that each condition matches whenever a second query matches it yields a subsequence of the second query's result |
| `Page.ClearedQueryKeepsAll` | app/page.tsx:184-231 | after clearing all filters and the term, the whole dataset is shown in order |
| `Page.MatchesSearch` | app/page.tsx:206-217 | the search test: the empty term, or a lower-cased text of the condition (name, presentation, a differential, a keyword, a drug, the code, the abbreviation, a non-empty note) containing the lower-cased term |
| `Page.MatchesSeverity` | app/page.tsx:222-227 | the severity test on the order rank: All, Critical up to 5, High up to 15, Moderate up to 50, Low above 50 |
| `Page.Matches` | app/page.tsx:219-231 | the conjunction of the search, specialty, age-group, severity and favourites tests |
| `Page.SomeContains` | app/page.tsx:211-212 | `some` over a list: an entry, lower-cased, contains the term |
| `Page.WhitespaceTermIsSearched` | app/page.tsx:206-216 | a blank-but-non-empty term is searched for literally and rejects a condition that has no such text; the empty term accepts it |
| `Page.NameMatchIsKept` | app/page.tsx:205-231 | a case-insensitive name match survives when no other filter narrows |
| `Page.SeverityBandsNest` | app/page.tsx:222-227 | Critical results are a subsequence of High results, and High of Moderate |
| `Page.LowDisjointFromModerate` | app/page.tsx:222-227 | no condition is in both the Low and the Moderate results |
| `Page.UnknownSeverityMatchesNothing` | app/page.tsx:222-227 | a severity outside the panel's vocabulary yields an empty result |
| `Page.OfferedValuesAreRecognised` | components/AdvancedSearchFilters.tsx:19-32 | every severity and age-group value the filter panel offers is accepted by the page's predicate for some condition |
| `Page.FavoritesOnlyKeepsFavorites` | app/page.tsx:229-231 | favourites-only gives exactly the favourite conditions of the unrestricted result, in order |
| `Page.FavoritesIgnoredWhenOff` | app/page.tsx:229 | with favourites-only off the favourites set does not affect the result |
| `Page.InactiveFiltersOnlySearch` | app/page.tsx:219-231 | when no panel filter is active the result is exactly the search matches |
| `Page.MostCriticalConditions` | app/page.tsx:258-261 | exactly the conditions of order rank 1 to 10, kept in dataset order (a subsequence of the dataset) |
| `Page.SpecialtyColumn` | app/page.tsx:263 | the specialty of each condition, position by position |
| `Page.Specialties` | app/page.tsx:263 | "All" first, then every dataset specialty once and nothing else, each in the order of its first appearance in the dataset |
| `Page.ColumnEntryIsSpecialty` | app/page.tsx:263 | every entry of the specialty column is the specialty of some dataset condition |
| `Page.PushRecent` | app/page.tsx:131-134 | the entry comes first and once, followed by the first 9 earlier searches with the entry removed (`r[1..] == Take(Remove(prev, entry), 9)`), at most 10 in all, duplicates never introduced |
| `Page.PushRecentStep` | app/page.tsx:131-134 | putting the entry before a list that lacks it and keeping 10 gives the entry once at the front, then the first 9 of that list, with no duplicates introduced |
| `Page.RepeatedSearchMovesToFront` | app/page.tsx:127-136 | searching an old term again moves it to the front instead of duplicating it |
| `Page.RawLengthDecidesRecording` | app/page.tsx:130 | the raw length decides recording: "  a" is recorded as "a", "ab" is not, a blank term is not |
| `Page.BlankTermNotRecorded` | app/page.tsx:130 | a term of spaces trims to the empty string and is not recorded |
| `Page.ShouldRecord` | app/page.tsx:130 | the trimmed term is non-empty and the raw term is longer than 2 UTF-16 code units |
| `Page.ToggleFavorite` | app/page.tsx:138-148 | the id's membership flips, every other id's membership stays, no duplicate appears |
| `Page.ToggleFavoriteTwice` | app/page.tsx:138-148 | toggling twice restores the favourites set, and the very list when the id was absent |
| `Page.EvictedKeys` | app/page.tsx:236-240 | at 50 or more cache keys the 10 oldest are evicted, otherwise none |
| `Page.KeySet` | app/page.tsx:236-239 | the keys of a key list, as a set |
| `Page.CacheKey` | app/page.tsx:193 | the term, the three panel values, the favourites flag and the comma-joined favourite ids, joined by "-" |
| `Page.BoolText` | app/page.tsx:193 | a boolean as a template literal renders it: "true" or "false" |
| `Page.NoteEditChangesResultNotKey` | app/page.tsx:193-211 | the cache key omits the notes although the filter reads them: a note edit changes the result under the same key |
| `Page.EmergencyReference.constructor` | app/page.tsx:82-95 | the initial state: cleared query, empty notes, flags, favourites and recent searches |
| `Page.EmergencyReference.CurrentQuery` | app/page.tsx:193 | the current term, panel selections and favourites flag |
| `Page.EmergencyReference.FavoriteSet` | app/page.tsx:229 | the favourites as the set `favorites.has` tests |
| `Page.EmergencyReference.Valid` | app/page.tsx:112-148 | the state the page keeps: favourites without duplicates, as a `Set`, and the cache key order listing each stored key once |
| `Page.EmergencyReference.LoadSaved` | app/page.tsx:97-125 | each stored collection that is present replaces the state (favourites as a set), an absent one leaves it unchanged |
| `Page.EmergencyReference.HandleSearch` | app/page.tsx:127-136 | the term is set; a recordable term goes to the front of the recent searches exactly once, and the 10-entry bound is kept |
| `Page.EmergencyReference.SelectSearchTerm` | app/page.tsx:387 | choosing a suggestion sets the term without recording it |
| `Page.EmergencyReference.ToggleFavoriteId` | app/page.tsx:138-148 | the favourite set flips the id and no other |
| `Page.EmergencyReference.ClearRecentSearches` | app/page.tsx:150-152 | the recent searches become empty |
| `Page.EmergencyReference.HandleNoteChange` | app/page.tsx:154-162 | the id's note is the new text and is marked saving; every other note is unchanged |
| `Page.EmergencyReference.ToggleNotes` | app/page.tsx:164-166 | the id's expanded flag flips, every other flag stays |
| `Page.EmergencyReference.ToggleShowFavoritesOnly` | app/page.tsx:393 | favourites-only flips |
| `Page.EmergencyReference.ClearAllFilters` | app/page.tsx:184-190 | the query is the cleared query, no panel filter is active and the whole dataset is shown |
| `Page.EmergencyReference.HandleDataImport` | app/page.tsx:322-330 | notes and recent searches are replaced; favourites become the set of the imported ids |
| `Page.EmergencyReference.RemoveCacheItem` | app/page.tsx:239 | the key leaves both the key order and the store |
| `Page.EmergencyReference.RemoveOldestItem` | app/page.tsx:239 | the oldest key leaves both the key order and the store |
| `Page.EmergencyReference.EvictOldest` | app/page.tsx:236-240 | exactly the evicted keys leave the store and the key order keeps the rest |
| `Page.EmergencyReference.FilteredConditions` | app/page.tsx:192-247 | a stored result for the key is returned and nothing changes; otherwise the filter result is stored under the key after eviction, and the cache stays within 50 entries |
| `SearchFilters.EachOfferedValueActivates` | components/AdvancedSearchFilters.tsx:48-49 | every offered value other than "All", and favourites-only, makes the filters active on its own; all "All" and off is inactive |
| `SearchFilters.HasActiveFilters` | components/AdvancedSearchFilters.tsx:48-49 | a panel value other than "All", or favourites-only, is set |
| `SearchAutocomplete.NameSuggestionsExact` | components/SearchAutocomplete.tsx:73-83 | every name suggestion comes from a name match, and every condition whose name matches has one |
| `SearchAutocomplete.NameSuggestions` | components/SearchAutocomplete.tsx:73-83 | the name facet: one suggestion per condition whose lower-cased name contains the term, in dataset order |
| `SearchAutocomplete.Icd10Suggestions` | components/SearchAutocomplete.tsx:86-96 | the code facet: one suggestion per condition whose lower-cased code contains the term, in dataset order |
| `SearchAutocomplete.DrugHits` | components/SearchAutocomplete.tsx:100-117 | one condition's drug suggestions: the adult drug, then the pediatric one, each when it matches |
| `SearchAutocomplete.DrugSuggestions` | components/SearchAutocomplete.tsx:99-118 | the drug facet: each condition's drug suggestions in dataset order |
| `SearchAutocomplete.KeywordHits` | components/SearchAutocomplete.tsx:122-132 | one condition's matching keywords, in keyword order |
| `SearchAutocomplete.KeywordSuggestions` | components/SearchAutocomplete.tsx:121-133 | the keyword facet: each condition's matching keywords in dataset order |
| `SearchAutocomplete.Candidates` | components/SearchAutocomplete.tsx:69-133 | the list before de-duplication: names, codes, drugs, keywords |
| `SearchAutocomplete.NameSuggestion` | components/SearchAutocomplete.tsx:76-81 | the condition type, the name as value and label, the condition as source |
| `SearchAutocomplete.Icd10Suggestion` | components/SearchAutocomplete.tsx:89-94 | the ICD-10 type, the code as value, "code - name" as label |
| `SearchAutocomplete.AdultDrugSuggestion` | components/SearchAutocomplete.tsx:101-107 | the drug type, the drug as value, "drug (for name)" as label |
| `SearchAutocomplete.PedsDrugSuggestion` | components/SearchAutocomplete.tsx:110-116 | the drug type, the drug as value, "drug (pediatric for name)" as label |
| `SearchAutocomplete.KeywordSuggestion` | components/SearchAutocomplete.tsx:124-130 | the keyword type, the keyword as value, "keyword (related to name)" as label |
| `SearchAutocomplete.Matched` | components/SearchAutocomplete.tsx:69-133 | a suggestion built by its facet from a dataset condition whose matching text contains the term |
| `SearchAutocomplete.AllMatched` | components/SearchAutocomplete.tsx:69-133 | every suggestion of a list is matched |
| `SearchAutocomplete.KindRank` | components/SearchAutocomplete.tsx:69-133 | the position of a type in the facet order |
| `SearchAutocomplete.FacetOrdered` | components/SearchAutocomplete.tsx:69-133 | the suggestions come grouped by type in facet order |
| `SearchAutocomplete.AllOfKind` | components/SearchAutocomplete.tsx:69-133 | a list holds suggestions of one type only |
| `SearchAutocomplete.CandidatesOfOne` | components/SearchAutocomplete.tsx:73-96 | a condition matching by name and code gives its name suggestion first and its code suggestion second |
| `SearchAutocomplete.Icd10SuggestionsExact` | components/SearchAutocomplete.tsx:86-96 | every code suggestion comes from a code match, and every matching code has one |
| `SearchAutocomplete.DrugSuggestionsMatched` | components/SearchAutocomplete.tsx:99-118 | every drug suggestion is the adult or pediatric drug of a condition and matches |
| `SearchAutocomplete.AdultDrugsSuggested` | components/SearchAutocomplete.tsx:100-108 | every condition whose adult drug matches has its drug suggestion |
| `SearchAutocomplete.PedsDrugsSuggested` | components/SearchAutocomplete.tsx:109-117 | every condition whose pediatric drug matches has its pediatric drug suggestion |
| `SearchAutocomplete.DrugSuggestionsExact` | components/SearchAutocomplete.tsx:99-118 | the drug facet holds exactly the matching adult and pediatric drugs |
| `SearchAutocomplete.KeywordHitsExact` | components/SearchAutocomplete.tsx:122-132 | one condition's keyword suggestions are exactly its matching keywords |
| `SearchAutocomplete.KeywordSuggestionsExact` | components/SearchAutocomplete.tsx:121-133 | the keyword facet holds exactly the matching keywords of every condition |
| `SearchAutocomplete.NameKinds` | components/SearchAutocomplete.tsx:73-83 | the name facet holds condition suggestions only |
| `SearchAutocomplete.Icd10Kinds` | components/SearchAutocomplete.tsx:86-96 | the code facet holds ICD-10 suggestions only |
| `SearchAutocomplete.DrugKinds` | components/SearchAutocomplete.tsx:99-118 | the drug facet holds drug suggestions only |
| `SearchAutocomplete.KeywordKinds` | components/SearchAutocomplete.tsx:121-133 | the keyword facet holds keyword suggestions only |
| `SearchAutocomplete.CandidatesMatched` | components/SearchAutocomplete.tsx:69-133 | before de-duplication every suggestion is a dataset match for the lower-cased term |
| `SearchAutocomplete.CandidatesOrdered` | components/SearchAutocomplete.tsx:69-133 | before de-duplication the facets come in order: names, codes, drugs, keywords |
| `SearchAutocomplete.DedupAfterIsSubsequence` | components/SearchAutocomplete.tsx:135-141 | de-duplication keeps a subsequence of its input |
| `SearchAutocomplete.DedupAfter` | components/SearchAutocomplete.tsx:136-140 | the `findIndex` filter: a suggestion is kept when no earlier one shares its type and value |
| `SearchAutocomplete.Key` | components/SearchAutocomplete.tsx:139 | what `findIndex` compares: the type and the value |
| `SearchAutocomplete.KeysOf` | components/SearchAutocomplete.tsx:139 | the type-and-value pairs occurring in a list |
| `SearchAutocomplete.UniqueKeys` | components/SearchAutocomplete.tsx:135-141 | no two suggestions share type and value |
| `SearchAutocomplete.FirstWithKey` | components/SearchAutocomplete.tsx:139 | `findIndex`: a position holding the key, with no earlier position holding it |
| `SearchAutocomplete.FirstOfEachKeyInOrder` | components/SearchAutocomplete.tsx:136-140 | each kept suggestion is the first of its key in the input, in order of those first positions |
| `SearchAutocomplete.DedupAfterFirstOfKey` | components/SearchAutocomplete.tsx:136-140 | the filter keeps the first suggestion of each key, in order of first appearance |
| `SearchAutocomplete.UniqueKeysCard` | components/SearchAutocomplete.tsx:136-141 | suggestions with distinct keys have as many keys as suggestions |
| `SearchAutocomplete.Dedup` | components/SearchAutocomplete.tsx:135-141 | no two kept suggestions share type and value, every original key is still present, facet order is kept, and the result is a subsequence holding the first suggestion of each key in order of first appearance |
| `SearchAutocomplete.DedupKeepsFirst` | components/SearchAutocomplete.tsx:135-141 | the first suggestion always survives de-duplication |
| `SearchAutocomplete.DedupKeepsFirstTwo` | components/SearchAutocomplete.tsx:135-141 | two leading suggestions with different keys both survive, in place |
| `SearchAutocomplete.RecentSuggestions` | components/SearchAutocomplete.tsx:59-64 | one recent suggestion per search, value and label the search itself |
| `SearchAutocomplete.Suggestions` | components/SearchAutocomplete.tsx:56-144 | a term shorter than 2 UTF-16 code units gives exactly the first min(5, number of recent searches) recent searches, in order; otherwise the first 8 of the de-duplicated facet scan, unique, facet-ordered dataset matches |
| `SearchAutocomplete.ShortTermIgnoresDataset` | components/SearchAutocomplete.tsx:57-66 | with a term shorter than 2 the dataset has no influence and no suggestion carries a condition |
| `SearchAutocomplete.OfferedMatches` | components/SearchAutocomplete.tsx:69-141 | with at most 8 distinct matches every match is offered; with 8 or more exactly 8 are offered |
| `SearchAutocomplete.NameMatchOffered` | components/SearchAutocomplete.tsx:73-141 | with at most 8 distinct matches a condition whose name matches is offered by name |
| `SearchAutocomplete.NameBeforeCode` | components/SearchAutocomplete.tsx:73-96 | a condition matching by both name and code suggests its name first and its code second |
| `SearchAutocomplete.PushNameMatches` | components/SearchAutocomplete.tsx:73-83 | the loop appends exactly the name facet |
| `SearchAutocomplete.PushIcd10Matches` | components/SearchAutocomplete.tsx:86-96 | the loop appends exactly the code facet |
| `SearchAutocomplete.PushDrugHits` | components/SearchAutocomplete.tsx:100-117 | one condition's body appends its adult then pediatric drug match |
| `SearchAutocomplete.PushDrugMatches` | components/SearchAutocomplete.tsx:99-118 | the loop appends exactly the drug facet |
| `SearchAutocomplete.PushKeywordHits` | components/SearchAutocomplete.tsx:122-132 | the inner loop appends one condition's keyword matches |
| `SearchAutocomplete.PushKeywordMatches` | components/SearchAutocomplete.tsx:121-133 | the loop appends exactly the keyword facet |
| `SearchAutocomplete.CollectCandidates` | components/SearchAutocomplete.tsx:69-133 | the four loops in turn build the candidate list |
| `SearchAutocomplete.BuildSuggestions` | components/SearchAutocomplete.tsx:56-144 | the effect's imperative construction equals the suggestion specification |
| `SearchAutocomplete.Autocomplete.constructor` | components/SearchAutocomplete.tsx:50-52 | closed, no selection, no suggestions |
| `SearchAutocomplete.Autocomplete.Refresh` | components/SearchAutocomplete.tsx:56-144 | the suggestions become those of the new term, dataset and recent searches |
| `SearchAutocomplete.Autocomplete.HandleKeyDown` | components/SearchAutocomplete.tsx:157-180 | closed: nothing; down/up clamp the selection to [-1, last]; Enter on a valid selection passes its value and closes; Escape closes and clears; the selection stays in range |
| `SearchAutocomplete.Autocomplete.InRange` | components/SearchAutocomplete.tsx:157-180 | the selection is -1 or the position of a suggestion |
| `SearchAutocomplete.Autocomplete.HandleSuggestionClick` | components/SearchAutocomplete.tsx:182-186 | the value, not the label, is passed on; the list closes and the selection resets |
| `SearchAutocomplete.Autocomplete.HandleInputChange` | components/SearchAutocomplete.tsx:188-193 | the text is passed on, the list opens, the selection resets |
| `SearchAutocomplete.Autocomplete.HandleInputFocus` | components/SearchAutocomplete.tsx:195-197 | the list opens |
| `SearchAutocomplete.Autocomplete.HandleClickOutside` | components/SearchAutocomplete.tsx:146-155 | a press outside the box closes the list, one inside changes nothing |
| `ConditionList.EvictFirst` | components/VirtualizedConditionList.tsx:585-590 | at 50 entries the oldest key goes, otherwise nothing |
| `ConditionList.SetKeys` | components/VirtualizedConditionList.tsx:584-592 | the key is present afterwards, no foreign key appears, no duplicate, the size stays within 50, below the limit nothing is lost, at the limit the oldest is gone unless re-set |
| `ConditionList.SetPresentKeyAtLimitShrinks` | components/VirtualizedConditionList.tsx:584-592 | at the limit, re-setting a present key that is not the oldest still evicts, leaving 49 entries |
| `ConditionList.SetOldestKeyAtLimitMovesIt` | components/VirtualizedConditionList.tsx:584-592 | at the limit, re-setting the oldest key evicts it and inserts it last |
| `ConditionList.SearchCache.constructor` | components/VirtualizedConditionList.tsx:85 | an empty cache |
| `ConditionList.SearchCache.Get` | components/VirtualizedConditionList.tsx:580-582 | the stored result exactly when the key is present |
| `ConditionList.SearchCache.Set` | components/VirtualizedConditionList.tsx:584-592 | the key order and entries after eviction and insertion; the key reads back its result |
| `ConditionList.SearchCache.Clear` | components/VirtualizedConditionList.tsx:576-578 | every key reads back nothing |
| `ConditionList.SearchCache.Size` | components/VirtualizedConditionList.tsx:585 | `searchCache.size`: the number of entries |
| `ConditionList.SearchCache.Valid` | components/VirtualizedConditionList.tsx:584-592 | the `Map` the cache keeps: each key once in insertion order, exactly the stored keys, at most 50 |
| `ConditionList.GetItemSize` | components/VirtualizedConditionList.tsx:493-509 | 200 plus 180 for expanded notes plus 600 for expanded details; one of four heights; at least 800 exactly when details are expanded |
| `ConditionList.ConditionListState.constructor` | components/VirtualizedConditionList.tsx:482 | no row expanded |
| `ConditionList.ConditionListState.OnToggleDetails` | components/VirtualizedConditionList.tsx:485-490 | the id's details flag flips, every other flag stays |
| `ConditionList.DoseText` | components/VirtualizedConditionList.tsx:129 | the per-kilogram dose for a pediatric treatment that has a non-empty one, else the plain dose |
| `ConditionList.MaxDoseSuffix` | components/VirtualizedConditionList.tsx:130 | a " (max …)" suffix exactly for a pediatric treatment with a non-empty maximum |
| `ConditionList.NoteBadgeIff` | components/VirtualizedConditionList.tsx:371 | the note badge shows exactly when the note has a non-white-space character |
| `Dosage.ScanFloatNonNegative` | components/DosageCalculator.tsx:59 | input without a minus sign never parses to a negative number |
| `Dosage.NoDigitIsNaN` | components/DosageCalculator.tsx:46-50 | input without a digit is NaN for both parsers |
| `Dosage.ParseFloat` | components/DosageCalculator.tsx:45-47 | a non-empty string of digits parses to its decimal value; a string without a digit is NaN |
| `Dosage.ParseInt` | components/DosageCalculator.tsx:183 | a non-empty string of digits parses to its decimal value; a string without a digit is NaN |
| `Dosage.ScanDigits` | components/DosageCalculator.tsx:45-47 | after a digit prefix, scanning the remaining digits gives the value of the whole digit string, for both parsers |
| `Dosage.DigitStringScans` | components/DosageCalculator.tsx:45-47 | both scanners read a digit string as its decimal value |
| `Dosage.NoDigitScans` | components/DosageCalculator.tsx:45-47 | both scanners fail on a string without a digit |
| `Dosage.ScanFloat` | components/DosageCalculator.tsx:45-47 | the `Number.parseFloat` scanner: leading white space, one sign, digits with at most one point, NaN without a digit |
| `Dosage.ScanInt` | components/DosageCalculator.tsx:183 | the `Number.parseInt` scanner: leading white space, one sign, the leading digits, NaN without a digit |
| `Dosage.IsDigit` | components/DosageCalculator.tsx:59 | a decimal digit, as `\d` matches |
| `Dosage.DigitValue` | components/DosageCalculator.tsx:45-47 | the value of a decimal digit |
| `Dosage.AllDigits` | components/DosageCalculator.tsx:45-47 | every character is a decimal digit |
| `Dosage.TruthyNumber` | components/DosageCalculator.tsx:60-65 | the `if (mgPerKg)` / `maxDoseValue &&` test: the parse succeeded and is not zero |
| `Dosage.StripToNumeric` | components/DosageCalculator.tsx:59 | the result is no longer than the input and holds only digits and points |
| `Dosage.StripKeepsNumeric` | components/DosageCalculator.tsx:59 | a string of digits and points is unchanged |
| `Dosage.StripKeepsDigits` | components/DosageCalculator.tsx:59 | every digit of the input survives |
| `Dosage.StripIdempotent` | components/DosageCalculator.tsx:59 | stripping twice is stripping once |
| `Dosage.StrippedParsesNonNegative` | components/DosageCalculator.tsx:59 | a stripped dose string never parses negative |
| `Dosage.DoseStringStrips` | components/DosageCalculator.tsx:59 | "5 mg/kg" strips to "5" |
| `Dosage.UnitStripped` | components/DosageCalculator.tsx:59 | the unit " mg/kg" strips to nothing |
| `Dosage.StripNothingKept` | components/DosageCalculator.tsx:59 | a string with no digit and no point strips to nothing |
| `Dosage.FiveParses` | components/DosageCalculator.tsx:59 | "5" parses to 5 |
| `Dosage.ParsedDose` | components/DosageCalculator.tsx:58-64 | a parsed dose string is never negative |
| `Dosage.TotalDose` | components/DosageCalculator.tsx:55-70 | non-negative; 0 without a usable per-kilogram dose; per-kg times weight when there is no usable maximum; with both usable, exactly per-kg times weight capped at the maximum |
| `Dosage.Volume` | components/DosageCalculator.tsx:72-74 | 0 unless the concentration and the dose are positive; then positive, and the volume times the concentration is the dose |
| `Dosage.Bmi` | components/DosageCalculator.tsx:76-80 | 0 unless the height is positive; then positive, and BMI times the squared height in metres is the weight |
| `Dosage.BsaRadicand` | components/DosageCalculator.tsx:84 | the Mosteller radicand is positive for positive height and weight |
| `Dosage.Bsa` | components/DosageCalculator.tsx:82-85 | 0 unless the height is positive |
| `Dosage.BandMonotone` | components/DosageCalculator.tsx:271-277 | a larger BMI never falls in a lower band |
| `Dosage.BandOf` | components/DosageCalculator.tsx:271-277 | the BMI band: below 18.5, below 25, below 30, else obese |
| `Dosage.BandRank` | components/DosageCalculator.tsx:271-277 | the place of a band in the order underweight, normal, overweight, obese |
| `Dosage.DoseExamples` | components/DosageCalculator.tsx:55-74 | 5 mg/kg for 20 kg is 100 mg; for 40 kg with a 150 mg maximum it is 150 mg; 100 mg at 10 mg/ml is 10 ml |
| `Dosage.BmiExample` | components/DosageCalculator.tsx:76-80 | 70 kg at 170 cm is about 24.2, a normal BMI |
| `Dosage.BlankAgeIsAdult` | components/DosageCalculator.tsx:183 | a blank age is an adult (NaN is not below 18), "12" a child |
| `Dosage.IsPediatricAge` | components/DosageCalculator.tsx:183 | the age parses as an integer below 18 |
| `Dosage.DoseForWeight` | components/DosageCalculator.tsx:55-70 | the accumulated total dose equals the dose specification |
| `Dosage.VolumeAt` | components/DosageCalculator.tsx:72-74 | the volume step equals the volume specification |
| `Dosage.BodyMeasures` | components/DosageCalculator.tsx:76-85 | the BMI and BSA steps equal their specifications |
| `Dosage.DosageCalculator.constructor` | components/DosageCalculator.tsx:34-43 | empty inputs and no result |
| `Dosage.DosageCalculator.CalculateDosage` | components/DosageCalculator.tsx:45-93 | with a positive weight and a treatment the result holds dose, volume, BMI and BSA; otherwise the old result stays |
| `Dosage.DosageCalculator.CalculateFromAge` | components/DosageCalculator.tsx:183 | the pediatric treatment is chosen exactly when the age parses below 18; with a positive weight and that treatment the result is exactly the dose, volume, BMI and BSA of the inputs, otherwise the old result stays |
| `Dosage.DosageCalculator.ChosenTreatment` | components/DosageCalculator.tsx:51 | the pediatric or the adult treatment of the condition |
| `Dosage.DosageCalculator.HandleClose` | components/DosageCalculator.tsx:95-102 | every input is cleared and the result removed |
| `DecisionSupport.CountTrue` | components/ClinicalDecisionSupport.tsx:155 | the number of criteria that hold: 0 exactly when none, all exactly when every one |
| `DecisionSupport.Sum` | components/ClinicalDecisionSupport.tsx:314 | the `reduce` sum of the sub-scores |
| `DecisionSupport.Indicator` | components/ClinicalDecisionSupport.tsx:251-257 | the worth of one criterion: 1 when it holds, else 0 |
| `DecisionSupport.Curb65Flags` | components/ClinicalDecisionSupport.tsx:155 | `Object.values(curb65)`: the five criteria |
| `DecisionSupport.QsofaFlags` | components/ClinicalDecisionSupport.tsx:183 | `Object.values(qsofa)`: the three criteria |
| `DecisionSupport.OfferedGcs` | components/ClinicalDecisionSupport.tsx:722-756 | the values the three selects offer: eye 1-4, verbal 1-5, motor 1-6 |
| `DecisionSupport.OfferedSofa` | components/ClinicalDecisionSupport.tsx:834-838 | each organ select offers 0..3 |
| `DecisionSupport.SumWithin` | components/ClinicalDecisionSupport.tsx:314 | sub-scores within 0..hi add up to a total within 0..count·hi |
| `DecisionSupport.Curb65` | components/ClinicalDecisionSupport.tsx:154-179 | score is the number of criteria (0..5); Low iff at most 1, Moderate iff 2, High iff 3 or more, each with its recommendation |
| `DecisionSupport.Qsofa` | components/ClinicalDecisionSupport.tsx:182-200 | score is the number of criteria (0..3); Low iff below 2, High iff 2 or more, each with its recommendation |
| `DecisionSupport.Gcs` | components/ClinicalDecisionSupport.tsx:203-228 | score is the sum of the three responses; Low iff 13 or more, Moderate iff 9..12, High iff 8 or less, each with its recommendation |
| `DecisionSupport.GcsRange` | components/ClinicalDecisionSupport.tsx:88-92 | offered values give 3..15; the starting state is 15 and Low; the minimum is High |
| `DecisionSupport.WellsRange` | components/ClinicalDecisionSupport.tsx:249-257 | the Wells score lies in [−3, 9.5] and both ends are reached |
| `DecisionSupport.WellsScore` | components/ClinicalDecisionSupport.tsx:249-257 | the weighted sum of the Wells criteria, the alternative diagnosis subtracting 3 |
| `DecisionSupport.WellsPoints` | components/ClinicalDecisionSupport.tsx:249-257 | the `score +=` steps compute the Wells weights |
| `DecisionSupport.CalculateWellsPE` | components/ClinicalDecisionSupport.tsx:249-274 | Low iff the score is at most 4, High iff above, with the matching advice |
| `DecisionSupport.ChadsVascRange` | components/ClinicalDecisionSupport.tsx:277-286 | the score lies in 0..10 and 10 is reached |
| `DecisionSupport.ChadsVascScore` | components/ClinicalDecisionSupport.tsx:277-286 | the weighted sum of the CHA2DS2-VASc criteria, age 75 and stroke counting 2 |
| `DecisionSupport.BothAgeBandsCount` | components/ClinicalDecisionSupport.tsx:280-285 | ticking both age bands adds 3 over ticking neither |
| `DecisionSupport.ChadsVascPoints` | components/ClinicalDecisionSupport.tsx:277-286 | the `score +=` steps compute the CHA2DS2-VASc weights |
| `DecisionSupport.CalculateChadsVasc` | components/ClinicalDecisionSupport.tsx:277-310 | Low iff at most 1, High iff 2 or more; no anticoagulation at 0, consider at 1, recommended from 2 |
| `DecisionSupport.ChadsVascWhole` | components/ClinicalDecisionSupport.tsx:277-286 | the score is a whole number |
| `DecisionSupport.NihssValues` | components/ClinicalDecisionSupport.tsx:127-139 | the eleven sub-scores |
| `DecisionSupport.Nihss` | components/ClinicalDecisionSupport.tsx:313-338 | score is the sum of the eleven; Low iff at most 4, Moderate iff 5..15, High iff above 15, each with its recommendation |
| `DecisionSupport.NihssNonNegative` | components/ClinicalDecisionSupport.tsx:313-338 | sub-scores within 0..hi give a total within 0..11·hi |
| `DecisionSupport.SofaValues` | components/ClinicalDecisionSupport.tsx:142-149 | the six organ scores |
| `DecisionSupport.Sofa` | components/ClinicalDecisionSupport.tsx:341-366 | score is the sum of the six; Low iff at most 6, Moderate iff 7..12, High iff above 12, each with its recommendation |
| `DecisionSupport.SofaRange` | components/ClinicalDecisionSupport.tsx:341-366 | offered values give a total of 0..18 |
| `DecisionSupport.AllergyFlags` | components/ClinicalDecisionSupport.tsx:95-101 | one flag per allergy key |
| `DecisionSupport.AlternativesFor` | components/ClinicalDecisionSupport.tsx:232-238 | every known allergy has alternatives |
| `DecisionSupport.AdviceFor` | components/ClinicalDecisionSupport.tsx:242-244 | the entry for an allergy key: the capitalised name with its alternatives |
| `DecisionSupport.AdviceList` | components/ClinicalDecisionSupport.tsx:240-245 | one entry per key |
| `DecisionSupport.CheckedAdvice` | components/ClinicalDecisionSupport.tsx:240-245 | one entry per checked key |
| `DecisionSupport.CheckedAdviceMembership` | components/ClinicalDecisionSupport.tsx:240-245 | an entry is listed exactly when a position holding it is checked |
| `DecisionSupport.CheckedAdviceInKeyOrder` | components/ClinicalDecisionSupport.tsx:240-245 | the checked entries keep key order |
| `DecisionSupport.DrugAlternatives` | components/ClinicalDecisionSupport.tsx:231-246 | one entry per checked allergy, each with alternatives |
| `DecisionSupport.CheckedAdviceAlternatives` | components/ClinicalDecisionSupport.tsx:240-245 | every entry for a known key carries alternatives |
| `DecisionSupport.AllergyEntriesDistinct` | components/ClinicalDecisionSupport.tsx:240-245 | different allergies give different entries |
| `DecisionSupport.DrugAlternativesExact` | components/ClinicalDecisionSupport.tsx:231-246 | an allergy's entry is listed exactly when it is checked, in key order |
| `DecisionSupport.Fired` | components/ClinicalDecisionSupport.tsx:374-444 | one fired flag per alert rule |
| `DecisionSupport.MentionsAny` | components/ClinicalDecisionSupport.tsx:374 | the chained `includes` test of a rule: some word of the rule occurs in the name |
| `DecisionSupport.Pair` | components/ClinicalDecisionSupport.tsx:374-444 | the two pushes of a rule when it fired, else none |
| `DecisionSupport.AllAlerts` | components/ClinicalDecisionSupport.tsx:369-458 | both alerts of every rule, in rule order |
| `DecisionSupport.FiredCount` | components/ClinicalDecisionSupport.tsx:369-458 | how many rules fired, counted in push order |
| `DecisionSupport.FiredCountIsCount` | components/ClinicalDecisionSupport.tsx:369-458 | counting in push order counts the fired flags |
| `DecisionSupport.AlertsFrom` | components/ClinicalDecisionSupport.tsx:369-458 | the two alerts of each fired rule, in rule order |
| `DecisionSupport.AlertsOfName` | components/ClinicalDecisionSupport.tsx:369-458 | a name's alerts are each rule's pair, in rule order, when one of its words occurs in the name |
| `DecisionSupport.AlertsFromLength` | components/ClinicalDecisionSupport.tsx:369-458 | exactly two alerts per fired rule |
| `DecisionSupport.AlertsFromInOrder` | components/ClinicalDecisionSupport.tsx:369-458 | the alerts appear in rule order |
| `DecisionSupport.AlertsFromMembers` | components/ClinicalDecisionSupport.tsx:369-458 | an alert is listed exactly when it belongs to a fired rule |
| `DecisionSupport.HyperRaisesEmbolismAlerts` | components/ClinicalDecisionSupport.tsx:430 | a name containing "hyper" raises both embolism alerts |
| `DecisionSupport.HyperContainsPe` | components/ClinicalDecisionSupport.tsx:430 | a name containing "hyper" contains "pe" |
| `DecisionSupport.ConditionSpecificAlerts` | components/ClinicalDecisionSupport.tsx:369-458 | the six guarded pushes give the alerts of the rules the lower-cased name fires, in order |
| `DecisionSupport.PushesBuildSections` | components/ClinicalDecisionSupport.tsx:461-475 | the pushes build the matching sections in test order, allergies and GCS first |
| `DecisionSupport.TestsOf` | components/ClinicalDecisionSupport.tsx:468-472 | the five substring tests on the lower-cased name |
| `DecisionSupport.RelevantScoreList` | components/ClinicalDecisionSupport.tsx:461-475 | allergies and GCS, then each guarded push in turn |
| `DecisionSupport.PushIf` | components/ClinicalDecisionSupport.tsx:468-472 | one `push` guarded by a test |
| `DecisionSupport.PanelKey` | components/ClinicalDecisionSupport.tsx:466-472 | the string key `getRelevantScores` pushes for each section |
| `DecisionSupport.SectionsShown` | components/ClinicalDecisionSupport.tsx:461-475 | the sections of each matching test, concatenated in test order |
| `DecisionSupport.Curb65Shown` | components/ClinicalDecisionSupport.tsx:468 | CURB-65 shows exactly for pneumonia |
| `DecisionSupport.SepsisScoresShown` | components/ClinicalDecisionSupport.tsx:469 | qSOFA and SOFA show exactly for sepsis |
| `DecisionSupport.WellsShown` | components/ClinicalDecisionSupport.tsx:470 | Wells shows exactly when "embolism" or "pe" occurs |
| `DecisionSupport.StrokeScoresShown` | components/ClinicalDecisionSupport.tsx:471-472 | NIHSS exactly for stroke; CHA2DS2-VASc exactly for stroke or a heart condition |
| `DecisionSupport.ChadsVascListedTwice` | components/ClinicalDecisionSupport.tsx:471-472 | a stroke that is a heart condition lists CHA2DS2-VASc twice |
| `DecisionSupport.HyperShowsWells` | components/ClinicalDecisionSupport.tsx:470 | any name containing "hyper" shows Wells |
| `DecisionSupport.RelevantScores` | components/ClinicalDecisionSupport.tsx:461-475 | the method's list equals the specification of the sections shown |
| `Related.SharedKeywords` | components/RelatedConditions.tsx:40 | each candidate keyword is kept as often as it occurs, exactly when the current condition lists it |
| `Related.SharedWords` | components/RelatedConditions.tsx:46 | each current word longer than 3 UTF-16 code units is kept as often as it occurs, exactly when the candidate's name has it |
| `Related.NameWords` | components/RelatedConditions.tsx:44-45 | a name lower-cased and split on single spaces |
| `Related.Abs` | components/RelatedConditions.tsx:50 | the magnitude of a difference |
| `Related.RankPoints` | components/RelatedConditions.tsx:50-52 | 2 points within 5 places, 1 within 10, else none |
| `Related.ScoreBounds` | components/RelatedConditions.tsx:32-52 | the score lies between 0 and the most each part can give |
| `Related.Score` | components/RelatedConditions.tsx:32-52 | 3 for the same specialty, 2 per shared keyword, 1 per shared long word, and the rank points |
| `Related.SharedKeywordsEmptyIff` | components/RelatedConditions.tsx:40-41 | some keyword is shared exactly when the filter returns something |
| `Related.SharedWordsEmptyIff` | components/RelatedConditions.tsx:44-47 | some long word is shared exactly when the filter returns something |
| `Related.ScorePositiveIff` | components/RelatedConditions.tsx:32-54 | positive exactly when the specialty matches, a keyword is shared, a long word is shared or the ranks are within 10 |
| `Related.DuplicateKeywordCountsTwice` | components/RelatedConditions.tsx:40-41 | a keyword listed twice by the candidate counts twice |
| `Related.CandidateScore` | components/RelatedConditions.tsx:32-52 | the `score +=` steps compute the score specification |
| `Related.Kept` | components/RelatedConditions.tsx:30-56 | the loop keeps a condition with another id and a positive score |
| `Related.Collect` | components/RelatedConditions.tsx:29-57 | each collected entry is a dataset condition other than the current one with a positive score, scored correctly |
| `Related.CollectHasKept` | components/RelatedConditions.tsx:29-57 | every kept condition is collected |
| `Related.CollectStep` | components/RelatedConditions.tsx:29-57 | one more loop step pushes the next condition exactly when it is kept |
| `Related.Insert` | components/RelatedConditions.tsx:61 | inserting adds exactly the new entry |
| `Related.InsertByScore` | components/RelatedConditions.tsx:61 | inserting into a best-first list keeps it best-first |
| `Related.ByScore` | components/RelatedConditions.tsx:61 | the order `b.score - a.score` sorts by: scores never increase along the list |
| `Related.SortByScore` | components/RelatedConditions.tsx:61 | a permutation ordered best score first |
| `Related.Conditions` | components/RelatedConditions.tsx:63 | the condition of each entry, position by position |
| `Related.RankedShape` | components/RelatedConditions.tsx:59-63 | at most 6, each kept and from the dataset, scores non-increasing |
| `Related.FewCandidatesAllRanked` | components/RelatedConditions.tsx:59-63 | with at most 6 kept every one is ranked |
| `Related.Ranked` | components/RelatedConditions.tsx:59-63 | the conditions of the first six entries of the sorted collection |
| `Related.KeptRankedOrOutscored` | components/RelatedConditions.tsx:59-63 | the top six: a kept candidate is ranked, or six are ranked and each scores at least as much as it |
| `Related.RelatedListShape` | components/RelatedConditions.tsx:26-64 | at most 6 other conditions with positive score, best first |
| `Related.FewCandidatesAllShown` | components/RelatedConditions.tsx:26-64 | with at most 6 candidates every positive-score other condition is shown |
| `Related.RelatedList` | components/RelatedConditions.tsx:26-64 | the ranking under the relatedness score to the current condition |
| `Related.ShownOrOutscored` | components/RelatedConditions.tsx:26-64 | another condition with a positive score is shown, or six are shown and each scores at least as much as it |
| `Related.CollectRelated` | components/RelatedConditions.tsx:27-57 | the `forEach` loop builds the collect specification |
| `Related.RelatedConditions` | components/RelatedConditions.tsx:26-64 | the memoised list equals the specification: at most 6, other conditions, positive, best first |
| `DataManager.Member` | components/DataManager.tsx:80 | a property read finds exactly an object's own member |
| `DataManager.TruthyJson` | components/DataManager.tsx:80 | JavaScript truthiness of a parsed value: null, false, 0 and "" are falsy, every array and object is truthy |
| `DataManager.Truthy` | components/DataManager.tsx:80 | a property read is truthy: the member is present and truthy |
| `DataManager.Accepts` | components/DataManager.tsx:80 | the three members notes, favorites and recentSearches are all truthy |
| `DataManager.AcceptsIff` | components/DataManager.tsx:80 | a backup is accepted exactly when it is an object with the three members present and truthy |
| `DataManager.EmptyCollectionsAccepted` | components/DataManager.tsx:80 | empty collections are accepted, since arrays and objects are truthy |
| `DataManager.FalsyMemberRejected` | components/DataManager.tsx:80 | a null, false, 0 or "" member rejects the backup |
| `DataManager.ArrayOr` | components/DataManager.tsx:83-84 | an array's items, else the empty list |
| `DataManager.Payload` | components/DataManager.tsx:81-85 | the notes as they are, the two lists when they are arrays and empty otherwise |
| `DataManager.KeyCount` | components/DataManager.tsx:88 | `Object.keys(...).length`: an object's members, an array's items, a string's UTF-16 code units, else 0 |
| `DataManager.ReportedLength` | components/DataManager.tsx:88 | `?.length || 0`: an array's items, a string's UTF-16 code units, else 0 |
| `DataManager.SuccessMessage` | components/DataManager.tsx:87-89 | the success text with the notes' key count and the two lists' lengths |
| `DataManager.ImportMessage` | components/DataManager.tsx:87-89 | the success text with the three counts in decimal |
| `DataManager.GetDataStats` | components/DataManager.tsx:157-163 | the count of non-blank notes, of favourites and of recent searches |
| `DataManager.BlankNotesNotCounted` | components/DataManager.tsx:158 | blank notes count 0 |
| `DataManager.FilledNotesAllCounted` | components/DataManager.tsx:158 | with no blank note every note counts |
| `DataManager.ExportNotes` | components/DataManager.tsx:50-55 | the notes as they are, with the statistic's note count |
| `DataManager.ExportOf` | components/DataManager.tsx:28-35 | the notes, the favourites array in the set's order, the recent searches as they are and the date, version "1.0"; the favourites duplicate-free, the counts matching the statistics |
| `DataManager.NotesJson` | components/DataManager.tsx:29-37 | the notes object with each id rendered as its decimal key |
| `DataManager.ExportJson` | components/DataManager.tsx:29-37 | the exported record as the JSON value that reading the file back gives |
| `DataManager.NotesJsonKeyCount` | components/DataManager.tsx:80-89 | the exported notes object has one key per note |
| `DataManager.ExportReimported` | components/DataManager.tsx:28-102 | an exported backup is accepted on import, hands back the same favourites and searches, and reports their counts |
| `DataManager.PanelExportReimported` | components/DataManager.tsx:28-102 | the record the panel exports reads back accepted, the favourites and searches element for element, and the message reports the panel's own counts |
| `DataManager.DataManagerPanel.constructor` | components/DataManager.tsx:25-26 | idle, no message, nothing handed on |
| `DataManager.DataManagerPanel.HandleImport` | components/DataManager.tsx:70-102 | no file: nothing; accepted: payload handed on and success reported; unreadable or rejected: error reported and nothing handed on |
| `DataManager.DataManagerPanel.ClearAllData` | components/DataManager.tsx:146-155 | confirmed: the three keys removed, empty data handed on, success reported; otherwise nothing changes |
| `DataManager.ClearedDataCountsZero` | components/DataManager.tsx:146-163 | cleared data counts zero in every statistic |
| `Records.NotedIds` | app/page.tsx:371 | exactly the ids whose note is not blank |
| `Records.NoteCount` | app/page.tsx:371 | the non-blank note count never exceeds the number of notes |
| `Records.NoteCountAfterEdit` | app/page.tsx:154-155 | a note edit moves the count by that id's change of blankness only |
| `Records.HasNote` | app/page.tsx:371 | the id has a note that is not blank |
| `Records.Flag` | app/page.tsx:164-166 | the id's flag is present and set |
| `Records.Truthy` | components/VirtualizedConditionList.tsx:129-130 | an optional treatment text is truthy: present and not "" |
| `Records.NoDuplicates` | app/page.tsx:112 | no value occurs twice, as in a `Set` |
| `Records.IsSubsequence` | app/page.tsx:205 | the first list is the second with some elements left out, order kept, as `filter` gives |
| `Records.ToggleFlag` | app/page.tsx:164-166 | the id's flag flips, every other flag stays |
| `Records.ToggleFlagTwice` | app/page.tsx:164-166 | toggling twice restores every flag |
| `Records.Remove` | app/page.tsx:132 | the input without the value: a subsequence of the input holding every other element as often as the input does and the value not at all, duplicates never introduced |
| `Records.RemoveDropStep` | app/page.tsx:132 | dropping a head equal to the value keeps every property of `Remove` |
| `Records.RemoveKeepStep` | app/page.tsx:132 | keeping a head other than the value keeps every property of `Remove` |
| `Records.RemoveAbsent` | app/page.tsx:132 | removing an absent search changes nothing |
| `Records.Take` | app/page.tsx:133 | the first n elements, or all of them |
| `Records.Distinct` | app/page.tsx:112 | each element once and nothing added, a subsequence of the input ordered by first appearance |
| `Records.FirstIndexSnoc` | app/page.tsx:112 | appending an element keeps a distinct list in first-appearance order, the element going last when it is new |
| `Records.DistinctOfDistinct` | app/page.tsx:112 | a duplicate-free list is its own set order |
| `Text.ToLower` | app/page.tsx:206 | the lower-case mapping, character by character |
| `Text.Capitalize` | components/ClinicalDecisionSupport.tsx:242 | the first letter upper-cased, the rest unchanged |
| `Text.LowerChar` | app/page.tsx:206 | an upper-case ASCII letter lower-cased, every other character unchanged |
| `Text.UpperChar` | components/ClinicalDecisionSupport.tsx:243 | a lower-case ASCII letter upper-cased, every other character unchanged |
| `Text.IsSpace` | app/page.tsx:130 | the white-space and line-terminator characters `trim` removes |
| `Text.TrimStart` | app/page.tsx:130 | a suffix of the input not starting with white space; everything cut is white space |
| `Text.TrimEnd` | app/page.tsx:130 | a prefix of the input not ending with white space; everything cut is white space |
| `Text.Trim` | app/page.tsx:130 | empty or starting and ending with a non-white-space character; the slice of the input right after its leading white space |
| `Text.LeadingSpaces` | app/page.tsx:130 | the length of the leading run of white space |
| `Text.Contains` | app/page.tsx:209 | `includes`: the second string occurs at some position of the first |
| `Text.StartsWith` | app/page.tsx:236 | `startsWith`: the string begins with the prefix |
| `Text.ContainsAt` | app/page.tsx:209 | an occurrence at any position makes `includes` true |
| `Text.ContainsPosition` | app/page.tsx:209 | `includes` gives a position where the string occurs |
| `Text.NotContainsLonger` | app/page.tsx:209 | no string includes a longer one |
| `Text.JsLength` | app/page.tsx:130 | `length` in UTF-16 code units: between the number of characters and twice it, equal exactly when no character lies outside the Basic Multilingual Plane |
| `Text.Utf16Units` | app/page.tsx:130 | how many UTF-16 code units one character takes: 2 outside the Basic Multilingual Plane, else 1 |
| `Text.TrimEmptyIff` | app/page.tsx:130 | a string trims to "" exactly when it is all white space |
| `Text.TrimIdempotent` | app/page.tsx:132-133 | trimming twice is trimming once |
| `Text.Split` | components/RelatedConditions.tsx:44-45 | at least one piece, none holding the separator, and joining the pieces with the separator gives the string back |
| `Text.Join` | app/page.tsx:193 | `join`: the parts with the separator between each two |
| `Text.FirstIndex` | components/RelatedConditions.tsx:44-45 | a position holding the element, with no earlier position holding it |
| `Text.FirstIndexPrefix` | app/page.tsx:263 | an element's first position is the same in any prefix that contains it |
| `Text.NatToStringRoundTrip` | components/DataManager.tsx:88 | a rendered count reads back as itself |
| `Text.NatToString` | components/DataManager.tsx:88 | the decimal rendering of a count |
| `Text.DigitChar` | components/DataManager.tsx:88 | the character of a decimal digit |
| `Text.IntToString` | app/page.tsx:193 | `String(id)`: a minus sign for a negative number, then its decimal digits |
| `Text.DigitsValue` | components/DosageCalculator.tsx:45-47 | the value of a string of decimal digits, read left to right |
| `Text.CharDigit` | components/DosageCalculator.tsx:45-47 | the digit a decimal character stands for |
| `Text.IntToStringInjective` | components/DataManager.tsx:37 | different ids render as different keys |

## Left out

- Rendering: JSX, CSS colours, icons, layout and the print views (`printCurrentView`, `printCondition`). These have no logic beyond display.
- Timers:
  - the 1-second reset of the `notesSaving` flag;
  - the 50 ms lazy load of the details section;
  - the scroll-and-highlight timeout of the related-condition click.
  - Time is not modelled; `HandleNoteChange` states only the flag it sets.
- The modal `isOpen` props and the open/close handlers of the calculator and decision-support panels. These are pure UI state.
- Persistence I/O: the browser's `localStorage`, `JSON.parse` and `JSON.stringify` of the page and of the data panel.
  - Stored values are given to `LoadSaved` as already decoded options.
  - Decoding failures are treated as absent.
  - A backup file arrives as `FileRead` (no file, unparsable, parsed value).
  - The download link of the export is not modelled; the exported record is.
- `FileReader` is asynchronous; the model handles the read result in one step.
- The page cache keeps only the search-cache entries of the storage.
  - Their order is the order of `Object.keys(localStorage)`, taken as insertion order.
  - The "search-cache-" prefix filter over other keys is not modelled.
- Text handling covers ASCII case mapping only. Unicode case folding and normalisation are not modelled; `trim` follows JavaScript's white-space set.
- `Dosage.ParseFloat`, `Dosage.ParseInt`: the parsers accept leading white space, one sign, digits and one point. They do not model exponents, `Infinity` or hexadecimal prefixes.
- Numbers are exact reals or integers. IEEE-754 rounding is not modelled; NaN is modelled only as a failed parse, and `TruthyJson` does not distinguish NaN.
- `Text.Trim`: the contract states that the result has no white space at either end and starts right after the leading white space. It does not state that everything cut from the end is white space; `TrimEmptyIff` covers the all-blank case.
- `Dosage.Bsa`: `Math.sqrt` is passed in as a function parameter, so its contract says only that BSA is 0 without a positive height.
- React memoisation (`useMemo`, `useCallback`, `React.memo`) and effect re-running are not modelled; each derived value is recomputed.
- The score forms' setters (checkbox and select handlers) are not modelled: each score is a function of its state record.
- NIHSS has no inputs in the panel and no rendered section, so its state stays at zero. It is modelled as the sum of eleven integers.
- `getRelevantScores` returns string keys. The model uses the enumeration `ScorePanel`, and `PanelKey` gives each key's string.
- `DataManager.SuccessMessage`: for a favorites or recentSearches member that is an object, `?.length || 0` gives 0 when the object has no own `length` member, as the model does. An object with its own truthy `length` member (such as `{"length": 7}`) reports that value in the source, while the model reports 0.
- `DataManager.DataManagerPanel.HandleImport`: reading `.notes` of a parsed `null` throws. The model merges this with rejection, since the outcome is the same: error, nothing handed on.
- `Page.EmergencyReference.HandleDataImport`: the page receives typed notes, favourites and searches. The JSON payload is not decoded into them.
- `Related.SortByScore`: it is a stable insertion sort, matching the stable order of JavaScript's `Array.prototype.sort`. Stability itself is not stated as a property.
- Related conditions' `onConditionSelect` and its scrolling are not modelled. This is navigation only.
- The service worker and the other context files are not part of this model.
