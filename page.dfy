/**
 * The page component of app/page.tsx: the conjunctive filter over the dataset, the
 * recent-search, favourite and note updates, and the result cache kept in an ordered
 * key store (the model of the browser's key-value storage).
 */
module Page {
  import opened Wrappers
  import opened Text
  import opened Records
  import opened SearchFilters

  /** The filter selections: free-text term, specialty, age group, severity band, favourites-only. */
  datatype Query = Query(term: string, specialty: string, ageGroup: string, severity: string, favoritesOnly: bool)

  /** The selections after `clearAllFilters`, with the term cleared too. */
  const ClearedQuery: Query := Query("", "All", "All", "All", false)

  // ---------------------------------------------------------------------------
  // The filter predicate

  /** `items.some((x) => x.toLowerCase().includes(q))`. */
  predicate SomeContains(items: seq<string>, q: string) {
    exists i | 0 <= i < |items| :: Contains(ToLower(items[i]), q)
  }

  /**
   * `matchesSearch`: the empty term matches everything; otherwise one of the condition's
   * texts, lower-cased, contains the lower-cased term. A whitespace-only term is not empty.
   */
  predicate MatchesSearch(c: Condition, term: string, notes: map<int, string>) {
    var q := ToLower(term);
    || term == ""
    || Contains(ToLower(c.name), q)
    || Contains(ToLower(c.presentation), q)
    || SomeContains(c.differentials, q)
    || SomeContains(c.keywords, q)
    || Contains(ToLower(c.adultTreatment.drugName), q)
    || (c.pedsTreatment.Some? && Contains(ToLower(c.pedsTreatment.value.drugName), q))
    || Contains(ToLower(c.icd10Code), q)
    || Contains(ToLower(c.abbrev), q)
    || (c.id in notes && notes[c.id] != "" && Contains(ToLower(notes[c.id]), q))
  }

  /** `matchesSeverity`: the bands overlap (Critical within High within Moderate). */
  predicate MatchesSeverity(severity: string, rank: int) {
    || severity == "All"
    || (severity == "Critical" && rank <= 5)
    || (severity == "High" && rank <= 15)
    || (severity == "Moderate" && rank <= 50)
    || (severity == "Low" && rank > 50)
  }

  /** The conjunction the page filters by. */
  predicate Matches(c: Condition, q: Query, notes: map<int, string>, favorites: set<int>) {
    && MatchesSearch(c, q.term, notes)
    && (q.specialty == "All" || c.specialty == q.specialty)
    && (q.ageGroup == "All" || c.ageGroup == q.ageGroup)
    && MatchesSeverity(q.severity, c.orderRank)
    && (!q.favoritesOnly || c.id in favorites)
  }

  /** `emergencyConditions.filter(...)`: the matching conditions, in dataset order. */
  function Filter(conds: seq<Condition>, q: Query, notes: map<int, string>, favorites: set<int>): (r: seq<Condition>)
    ensures |r| <= |conds|
    ensures forall c :: c in r <==> c in conds && Matches(c, q, notes, favorites)
  {
    if conds == [] then []
    else (if Matches(conds[0], q, notes, favorites) then [conds[0]] else []) + Filter(conds[1..], q, notes, favorites)
  }

  /** The filter result is an order-preserving subsequence of the dataset. */
  lemma {:induction false} FilterIsSubsequence(conds: seq<Condition>, q: Query, notes: map<int, string>, favorites: set<int>)
    ensures IsSubsequence(Filter(conds, q, notes, favorites), conds)
  {
    if conds != [] {
      FilterIsSubsequence(conds[1..], q, notes, favorites);
      var rest := Filter(conds[1..], q, notes, favorites);
      if Matches(conds[0], q, notes, favorites) {
        assert Filter(conds, q, notes, favorites) == [conds[0]] + rest;
        assert ([conds[0]] + rest)[1..] == rest;
      } else {
        assert Filter(conds, q, notes, favorites) == rest;
        SubsequenceCons(rest, conds[1..], conds[0]);
        assert conds == [conds[0]] + conds[1..];
      }
    }
  }

  /**
   * A weaker selection keeps everything a stronger one keeps, in the same order: if every
   * condition matching (q1, notes1, favorites1) also matches (q2, notes2, favorites2), the first
   * result is a subsequence of the second.
   */
  lemma {:induction false} FilterMonotone(conds: seq<Condition>,
                                          q1: Query, notes1: map<int, string>, favorites1: set<int>,
                                          q2: Query, notes2: map<int, string>, favorites2: set<int>)
    requires forall c :: c in conds && Matches(c, q1, notes1, favorites1) ==> Matches(c, q2, notes2, favorites2)
    ensures IsSubsequence(Filter(conds, q1, notes1, favorites1), Filter(conds, q2, notes2, favorites2))
  {
    if conds != [] {
      var c := conds[0];
      FilterMonotone(conds[1..], q1, notes1, favorites1, q2, notes2, favorites2);
      var r1 := Filter(conds[1..], q1, notes1, favorites1);
      var r2 := Filter(conds[1..], q2, notes2, favorites2);
      if Matches(c, q1, notes1, favorites1) {
        assert ([c] + r1)[1..] == r1 && ([c] + r2)[1..] == r2;
      } else if Matches(c, q2, notes2, favorites2) {
        assert Filter(conds, q1, notes1, favorites1) == r1;
        assert Filter(conds, q2, notes2, favorites2) == [c] + r2;
        SubsequenceCons(r1, r2, c);
      } else {
        assert Filter(conds, q1, notes1, favorites1) == r1;
        assert Filter(conds, q2, notes2, favorites2) == r2;
      }
    }
  }

  /** With the term empty and every filter at "All", the result is the whole dataset. */
  lemma {:induction false} ClearedQueryKeepsAll(conds: seq<Condition>, notes: map<int, string>, favorites: set<int>)
    ensures Filter(conds, ClearedQuery, notes, favorites) == conds
  {
    if conds != [] {
      ClearedQueryKeepsAll(conds[1..], notes, favorites);
      assert Matches(conds[0], ClearedQuery, notes, favorites);
    }
  }

  /** A condition with no text at all, used to show what the filter does with odd terms. */
  function BlankCondition(id: int): Condition {
    var t := Treatment("", "", None, None, None, "", "", None, "");
    Condition(id, 1, "", "", "", "Emergency", None, "Adult", "", "", [], [], t, None, None, [])
  }

  /** Example: a term of white space is not the empty term; it is searched for literally and can match nothing. */
  lemma WhitespaceTermIsSearched(notes: map<int, string>)
    requires 7 !in notes
    ensures !MatchesSearch(BlankCondition(7), " ", notes)
    ensures MatchesSearch(BlankCondition(7), "", notes)
  {
    var c := BlankCondition(7);
    var q := ToLower(" ");
    assert |q| == 1;
    NotContainsLonger(ToLower(""), q);
  }

  /** A term that is a case-insensitive substring of a condition's name keeps that condition when nothing else narrows. */
  lemma NameMatchIsKept(conds: seq<Condition>, c: Condition, term: string, notes: map<int, string>, favorites: set<int>)
    requires c in conds && Contains(ToLower(c.name), ToLower(term))
    ensures c in Filter(conds, Query(term, "All", "All", "All", false), notes, favorites)
  {
  }

  /** The severity bands nest: Critical results within High results within Moderate results. */
  lemma SeverityBandsNest(conds: seq<Condition>, term: string, specialty: string, ageGroup: string,
                          favoritesOnly: bool, notes: map<int, string>, favorites: set<int>)
    ensures IsSubsequence(Filter(conds, Query(term, specialty, ageGroup, "Critical", favoritesOnly), notes, favorites),
                          Filter(conds, Query(term, specialty, ageGroup, "High", favoritesOnly), notes, favorites))
    ensures IsSubsequence(Filter(conds, Query(term, specialty, ageGroup, "High", favoritesOnly), notes, favorites),
                          Filter(conds, Query(term, specialty, ageGroup, "Moderate", favoritesOnly), notes, favorites))
  {
    FilterMonotone(conds, Query(term, specialty, ageGroup, "Critical", favoritesOnly), notes, favorites,
                   Query(term, specialty, ageGroup, "High", favoritesOnly), notes, favorites);
    FilterMonotone(conds, Query(term, specialty, ageGroup, "High", favoritesOnly), notes, favorites,
                   Query(term, specialty, ageGroup, "Moderate", favoritesOnly), notes, favorites);
  }

  /** No condition is both in the Low results and in the Moderate results. */
  lemma LowDisjointFromModerate(conds: seq<Condition>, term: string, specialty: string, ageGroup: string,
                                favoritesOnly: bool, notes: map<int, string>, favorites: set<int>)
    ensures forall c :: c in Filter(conds, Query(term, specialty, ageGroup, "Low", favoritesOnly), notes, favorites)
                    ==> c !in Filter(conds, Query(term, specialty, ageGroup, "Moderate", favoritesOnly), notes, favorites)
  {
  }

  /** A severity value outside the panel's vocabulary matches nothing. */
  lemma UnknownSeverityMatchesNothing(conds: seq<Condition>, q: Query, notes: map<int, string>, favorites: set<int>)
    requires q.severity !in SeverityLevels
    ensures Filter(conds, q, notes, favorites) == []
  {
  }

  /** Every value offered by the filter panel is one the page predicate recognises: it keeps some conditions. */
  lemma OfferedValuesAreRecognised()
    ensures forall i :: 0 <= i < |SeverityLevels| ==> MatchesSeverity(SeverityLevels[i], if SeverityLevels[i] == "Low" then 51 else 1)
    ensures forall i, c: Condition :: 0 <= i < |AgeGroups| && c.ageGroup == AgeGroups[i] ==>
              Matches(c, Query("", "All", AgeGroups[i], "All", false), map[], {})
  {
  }

  /** Favourites-only keeps exactly the favourite conditions of the unrestricted result, in order. */
  lemma FavoritesOnlyKeepsFavorites(conds: seq<Condition>, q: Query, notes: map<int, string>, favorites: set<int>)
    ensures forall c :: c in Filter(conds, q.(favoritesOnly := true), notes, favorites)
                    <==> c in Filter(conds, q.(favoritesOnly := false), notes, favorites) && c.id in favorites
    ensures IsSubsequence(Filter(conds, q.(favoritesOnly := true), notes, favorites),
                          Filter(conds, q.(favoritesOnly := false), notes, favorites))
  {
    FilterMonotone(conds, q.(favoritesOnly := true), notes, favorites, q.(favoritesOnly := false), notes, favorites);
  }

  /** With favourites-only off, the favourites set has no effect on the result. */
  lemma {:induction false} FavoritesIgnoredWhenOff(conds: seq<Condition>, q: Query, notes: map<int, string>,
                                                   favorites1: set<int>, favorites2: set<int>)
    requires !q.favoritesOnly
    ensures Filter(conds, q, notes, favorites1) == Filter(conds, q, notes, favorites2)
  {
    if conds != [] {
      FavoritesIgnoredWhenOff(conds[1..], q, notes, favorites1, favorites2);
      assert Matches(conds[0], q, notes, favorites1) == Matches(conds[0], q, notes, favorites2);
    }
  }

  /** When no filter is active, only the search term narrows the list. */
  lemma InactiveFiltersOnlySearch(conds: seq<Condition>, q: Query, notes: map<int, string>, favorites: set<int>)
    requires !HasActiveFilters(q.specialty, q.ageGroup, q.severity, q.favoritesOnly)
    ensures forall c :: c in Filter(conds, q, notes, favorites) <==> c in conds && MatchesSearch(c, q.term, notes)
  {
  }

  /** `mostCriticalConditions`: the conditions whose rank is one of 1..10, in dataset order. */
  function MostCriticalConditions(conds: seq<Condition>): (r: seq<Condition>)
    ensures forall c :: c in r <==> c in conds && 1 <= c.orderRank <= 10
    ensures |r| <= |conds|
    ensures IsSubsequence(r, conds)
  {
    if conds == [] then []
    else
      var rest := MostCriticalConditions(conds[1..]);
      if conds[0].orderRank in [1, 2, 3, 4, 5, 6, 7, 8, 9, 10] then
        SubsequenceBoth(rest, conds[1..], conds[0]);
        assert conds == [conds[0]] + conds[1..];
        [conds[0]] + rest
      else
        SubsequenceCons(rest, conds[1..], conds[0]);
        assert conds == [conds[0]] + conds[1..];
        rest
  }

  /** The specialty of each condition, in dataset order. */
  function SpecialtyColumn(conds: seq<Condition>): (r: seq<string>)
    ensures |r| == |conds| && forall i :: 0 <= i < |conds| ==> r[i] == conds[i].specialty
  {
    seq(|conds|, i requires 0 <= i < |conds| => conds[i].specialty)
  }

  /** Every entry of the specialty column is the specialty of some condition. */
  lemma ColumnEntryIsSpecialty(conds: seq<Condition>, x: string)
    requires x in SpecialtyColumn(conds)
    ensures exists c :: c in conds && c.specialty == x
  {
    var k :| 0 <= k < |conds| && SpecialtyColumn(conds)[k] == x;
    assert conds[k] in conds;
  }

  /**
   * `specialties`: "All" followed by each distinct specialty once, in order of first appearance
   * in the dataset.
   */
  function Specialties(conds: seq<Condition>): (r: seq<string>)
    ensures |r| >= 1 && r[0] == "All"
    ensures NoDuplicates(r[1..])
    ensures forall c :: c in conds ==> c.specialty in r[1..]
    ensures forall x :: x in r[1..] ==> x in SpecialtyColumn(conds)
    ensures forall x :: x in r[1..] ==> exists c :: c in conds && c.specialty == x
    ensures IsSubsequence(r[1..], SpecialtyColumn(conds))
    ensures forall i, j :: 0 <= i < j < |r[1..]| ==>
              FirstIndex(SpecialtyColumn(conds), r[1..][i]) < FirstIndex(SpecialtyColumn(conds), r[1..][j])
  {
    var column := SpecialtyColumn(conds);
    var d := Distinct(column);
    assert forall c :: c in conds ==> c.specialty in column;
    forall x | x in d ensures exists c :: c in conds && c.specialty == x {
      ColumnEntryIsSpecialty(conds, x);
    }
    var r := ["All"] + d;
    assert r[1..] == d;
    r
  }

  // ---------------------------------------------------------------------------
  // User-state updates

  /**
   * `handleSearch` records a term when it is not blank and its raw length, counted in UTF-16
   * code units as JavaScript does, exceeds 2.
   */
  predicate ShouldRecord(term: string) {
    Trim(term) != "" && JsLength(term) > 2
  }

  /** The number of recent searches kept. */
  const RecentSearchLimit: nat := 10

  /** `[entry, ...prev.filter((s) => s !== entry)].slice(0, 10)`. */
  function PushRecent(prev: seq<string>, entry: string): (r: seq<string>)
    ensures 1 <= |r| <= RecentSearchLimit
    ensures r[0] == entry && entry !in r[1..]
    ensures forall i :: 1 <= i < |r| ==> r[i] in prev
    ensures NoDuplicates(prev) ==> NoDuplicates(r)
    ensures r[1..] == Take(Remove(prev, entry), RecentSearchLimit - 1)
  {
    var rest := Remove(prev, entry);
    var r := Take([entry] + rest, RecentSearchLimit);
    PushRecentStep(prev, entry, rest, r);
    r
  }

  /** The front entry of `PushRecent` followed by a prefix of what remains of `prev`. */
  lemma PushRecentStep(prev: seq<string>, entry: string, rest: seq<string>, r: seq<string>)
    requires entry !in rest
    requires forall i :: 0 <= i < |rest| ==> rest[i] in prev
    requires NoDuplicates(prev) ==> NoDuplicates(rest)
    requires r == Take([entry] + rest, RecentSearchLimit)
    ensures 1 <= |r| <= RecentSearchLimit
    ensures r[0] == entry && entry !in r[1..]
    ensures forall i :: 1 <= i < |r| ==> r[i] in prev
    ensures NoDuplicates(prev) ==> NoDuplicates(r)
    ensures r[1..] == Take(rest, RecentSearchLimit - 1)
  {
    var t := Take(rest, RecentSearchLimit - 1);
    assert forall i :: 1 <= i < |r| ==> r[i] == rest[i - 1];
    assert r[1..] == t;
  }

  /** Example of `PushRecent`: a term already in the list moves to the front instead of appearing twice. */
  lemma RepeatedSearchMovesToFront()
    ensures PushRecent(PushRecent(PushRecent([], "chest pain"), "sepsis"), "chest pain") == ["chest pain", "sepsis"]
  {
    var one := PushRecent([], "chest pain");
    assert one == ["chest pain"];
    var two := PushRecent(one, "sepsis");
    assert Remove(one, "sepsis") == ["chest pain"];
    assert two == ["sepsis", "chest pain"];
    assert Remove(two, "chest pain") == ["sepsis"] by {
      assert two[1..] == ["chest pain"];
      assert Remove(two[1..], "chest pain") == [];
    }
  }

  /**
   * The length test is on the raw term: "  a" is recorded (as "a") although its trimmed
   * form is one character long, while "ab" and a blank term are not recorded.
   */
  lemma RawLengthDecidesRecording()
    ensures ShouldRecord("  a") && Trim("  a") == "a"
    ensures !ShouldRecord("ab") && !ShouldRecord("   ")
  {
    var t := "  a";
    assert IsSpace(t[0]) && IsSpace(t[1]) && !IsSpace(t[2]);
    assert TrimStart(t) == TrimStart(t[1..]);
    assert t[1..][1..] == "a";
    assert TrimStart(t[1..]) == TrimStart("a");
    assert TrimEnd("a") == "a";
    BlankTermNotRecorded();
  }

  lemma BlankTermNotRecorded()
    ensures Trim("   ") == ""
  {
    var t := "   ";
    assert IsSpace(t[0]) && IsSpace(t[1]) && IsSpace(t[2]);
    assert TrimStart(t) == TrimStart(t[1..]);
    assert t[1..][1..] == " " && t[1..][1..][1..] == "";
    assert TrimStart(t[1..]) == TrimStart(" ");
  }

  /** `toggleFavorite` on the insertion-ordered favourites: delete when present, else add at the end. */
  function ToggleFavorite(favorites: seq<int>, id: int): (r: seq<int>)
    ensures id in r <==> id !in favorites
    ensures forall x :: x != id ==> (x in r <==> x in favorites)
    ensures NoDuplicates(favorites) ==> NoDuplicates(r)
  {
    if id in favorites then Remove(favorites, id) else favorites + [id]
  }

  /** Toggling a favourite twice restores the set, and the exact order when it was not a favourite. */
  lemma ToggleFavoriteTwice(favorites: seq<int>, id: int)
    ensures (set x | x in ToggleFavorite(ToggleFavorite(favorites, id), id)) == set x | x in favorites
    ensures id !in favorites ==> ToggleFavorite(ToggleFavorite(favorites, id), id) == favorites
  {
    if id !in favorites {
      RemoveAppended(favorites, id);
    }
  }

  // ---------------------------------------------------------------------------
  // The result cache

  /** The number of cache entries at which eviction starts. */
  const CacheEntryLimit: nat := 50
  /** The number of oldest entries removed on eviction. */
  const CacheEvictCount: nat := 10

  /** `"true"`/`"false"`, as a template literal renders a boolean. */
  function BoolText(b: bool): string {
    if b then "true" else "false"
  }

  /** The cache key: term, the three filters, the flag and the favourite ids; the notes are not part of it. */
  function CacheKey(q: Query, favorites: seq<int>): string {
    var ids := seq(|favorites|, i requires 0 <= i < |favorites| => IntToString(favorites[i]));
    q.term + "-" + q.specialty + "-" + q.ageGroup + "-" + q.severity + "-" + BoolText(q.favoritesOnly) + "-" + Join(ids, ",")
  }

  /** The keys eviction removes from a store with these keys: the first 10 once there are 50 or more. */
  function EvictedKeys(keys: seq<string>): (r: seq<string>)
    ensures |keys| >= CacheEntryLimit ==> r == keys[..CacheEvictCount]
    ensures |keys| < CacheEntryLimit ==> r == []
  {
    if |keys| >= CacheEntryLimit then keys[..CacheEvictCount] else []
  }

  /** Example: a note edit can change what the filter returns while the cache key stays the same. */
  lemma NoteEditChangesResultNotKey(favorites: seq<int>)
    ensures var q := Query("xyz", "All", "All", "All", false);
            && Filter([BlankCondition(7)], q, map[], {}) == []
            && Filter([BlankCondition(7)], q, map[7 := "xyz"], {}) == [BlankCondition(7)]
  {
    var c := BlankCondition(7);
    var q := ToLower("xyz");
    assert q == "xyz";
    NotContainsLonger(ToLower(""), q);
    assert StartsWith(ToLower("xyz"), q);
    assert Matches(c, Query("xyz", "All", "All", "All", false), map[7 := "xyz"], {});
    assert !Matches(c, Query("xyz", "All", "All", "All", false), map[], {});
  }

  /** The keys of a key list, as a set. */
  function KeySet(keys: seq<string>): set<string> {
    set k | k in keys
  }

  lemma KeySetSnoc(keys: seq<string>, i: nat)
    requires i < |keys|
    ensures KeySet(keys[..i + 1]) == KeySet(keys[..i]) + {keys[i]}
  {
    assert keys[..i + 1] == keys[..i] + [keys[i]];
  }

  lemma RemoveFirstDistinct(s: seq<string>)
    requires s != [] && NoDuplicates(s)
    ensures Remove(s, s[0]) == s[1..]
  {
    assert s[0] !in s[1..];
    RemoveAbsent(s[1..], s[0]);
  }

  // ---------------------------------------------------------------------------
  // The page state

  class EmergencyReference {
    const conditions: seq<Condition>
    var searchTerm: string
    var selectedSpecialty: string
    var selectedAgeGroup: string
    var selectedSeverity: string
    var notes: map<int, string>
    var expandedNotes: map<int, bool>
    var notesSaving: map<int, bool>
    /** The favourites set, in its insertion order. */
    var favorites: seq<int>
    var recentSearches: seq<string>
    var showFavoritesOnly: bool
    /** The cache entries' keys, in the store's order (oldest first). */
    var cacheKeys: seq<string>
    var cacheStore: map<string, seq<Condition>>

    ghost predicate Valid()
      reads this
    {
      && NoDuplicates(favorites)
      && NoDuplicates(cacheKeys)
      && (forall k :: k in cacheStore <==> k in cacheKeys)
    }

    /** The current selections. */
    function CurrentQuery(): Query
      reads this
    {
      Query(searchTerm, selectedSpecialty, selectedAgeGroup, selectedSeverity, showFavoritesOnly)
    }

    /** `favorites.has(id)` as a set. */
    function FavoriteSet(): set<int>
      reads this
    {
      set x | x in favorites
    }

    /** The initial state: empty user state, every filter at "All", and the cache entries already in the store. */
    constructor (dataset: seq<Condition>, storedKeys: seq<string>, storedResults: map<string, seq<Condition>>)
      requires NoDuplicates(storedKeys) && forall k :: k in storedResults <==> k in storedKeys
      ensures Valid()
      ensures conditions == dataset && CurrentQuery() == ClearedQuery
      ensures notes == map[] && expandedNotes == map[] && notesSaving == map[]
      ensures favorites == [] && recentSearches == []
      ensures cacheKeys == storedKeys && cacheStore == storedResults
    {
      conditions := dataset;
      searchTerm, selectedSpecialty, selectedAgeGroup, selectedSeverity := "", "All", "All", "All";
      notes, expandedNotes, notesSaving := map[], map[], map[];
      favorites, recentSearches, showFavoritesOnly := [], [], false;
      cacheKeys, cacheStore := storedKeys, storedResults;
    }

    /** The start-up load: each saved collection that exists and parses replaces the default. */
    method LoadSaved(savedNotes: Option<map<int, string>>, savedFavorites: Option<seq<int>>,
                     savedRecent: Option<seq<string>>)
      requires Valid()
      modifies this`notes, this`favorites, this`recentSearches
      ensures Valid()
      ensures notes == if savedNotes.Some? then savedNotes.value else old(notes)
      ensures favorites == if savedFavorites.Some? then Distinct(savedFavorites.value) else old(favorites)
      ensures recentSearches == if savedRecent.Some? then savedRecent.value else old(recentSearches)
    {
      if savedNotes.Some? {
        notes := savedNotes.value;
      }
      if savedFavorites.Some? {
        favorites := Distinct(savedFavorites.value);
      }
      if savedRecent.Some? {
        recentSearches := savedRecent.value;
      }
    }

    /** `handleSearch`: always sets the raw term; records the trimmed term when `ShouldRecord`. */
    method HandleSearch(term: string)
      modifies this`searchTerm, this`recentSearches
      ensures searchTerm == term
      ensures recentSearches == if ShouldRecord(term) then PushRecent(old(recentSearches), Trim(term)) else old(recentSearches)
      ensures ShouldRecord(term) ==> recentSearches[0] == Trim(term) && Trim(term) !in recentSearches[1..]
      ensures |old(recentSearches)| <= RecentSearchLimit ==> |recentSearches| <= RecentSearchLimit
    {
      searchTerm := term;
      if Trim(term) != "" && JsLength(term) > 2 {
        recentSearches := PushRecent(recentSearches, Trim(term));
      }
    }

    /** `onSearchSelect`: sets the term without recording it. */
    method SelectSearchTerm(term: string)
      modifies this`searchTerm
      ensures searchTerm == term
    {
      searchTerm := term;
    }

    /** `toggleFavorite`. */
    method ToggleFavoriteId(id: int)
      requires Valid()
      modifies this`favorites
      ensures Valid()
      ensures favorites == ToggleFavorite(old(favorites), id)
      ensures id in FavoriteSet() <==> id !in old(FavoriteSet())
      ensures forall x :: x != id ==> (x in FavoriteSet() <==> x in old(FavoriteSet()))
    {
      favorites := ToggleFavorite(favorites, id);
    }

    /** `clearRecentSearches`. */
    method ClearRecentSearches()
      modifies this`recentSearches
      ensures recentSearches == []
    {
      recentSearches := [];
    }

    /** `handleNoteChange`: only the given id's note and saving flag change. */
    method HandleNoteChange(id: int, text: string)
      modifies this`notes, this`notesSaving
      ensures notes == old(notes)[id := text]
      ensures notesSaving == old(notesSaving)[id := true]
      ensures forall x :: x != id ==> (x in notes <==> x in old(notes)) && (x in old(notes) ==> notes[x] == old(notes)[x])
    {
      notes := notes[id := text];
      notesSaving := notesSaving[id := true];
    }

    /** `toggleNotes`: flips the given id's expanded flag only. */
    method ToggleNotes(id: int)
      modifies this`expandedNotes
      ensures expandedNotes == ToggleFlag(old(expandedNotes), id)
      ensures Flag(expandedNotes, id) == !Flag(old(expandedNotes), id)
      ensures forall x :: x != id ==> Flag(expandedNotes, x) == Flag(old(expandedNotes), x)
    {
      expandedNotes := ToggleFlag(expandedNotes, id);
    }

    /** The favourites-only button. */
    method ToggleShowFavoritesOnly()
      modifies this`showFavoritesOnly
      ensures showFavoritesOnly == !old(showFavoritesOnly)
    {
      showFavoritesOnly := !showFavoritesOnly;
    }

    /** `clearAllFilters`: every filter back to "All", favourites-only off, term cleared. */
    method ClearAllFilters()
      modifies this`selectedSpecialty, this`selectedAgeGroup, this`selectedSeverity, this`showFavoritesOnly, this`searchTerm
      ensures CurrentQuery() == ClearedQuery
      ensures !HasActiveFilters(selectedSpecialty, selectedAgeGroup, selectedSeverity, showFavoritesOnly)
      ensures Filter(conditions, CurrentQuery(), notes, FavoriteSet()) == conditions
    {
      selectedSpecialty := "All";
      selectedAgeGroup := "All";
      selectedSeverity := "All";
      showFavoritesOnly := false;
      searchTerm := "";
      ClearedQueryKeepsAll(conditions, notes, FavoriteSet());
    }

    /** `handleDataImport`: notes, favourites (as the set of the array) and searches replaced wholesale. */
    method HandleDataImport(importedNotes: map<int, string>, importedFavorites: seq<int>, importedSearches: seq<string>)
      requires Valid()
      modifies this`notes, this`favorites, this`recentSearches
      ensures Valid()
      ensures notes == importedNotes && recentSearches == importedSearches
      ensures favorites == Distinct(importedFavorites)
      ensures FavoriteSet() == set x | x in importedFavorites
    {
      notes := importedNotes;
      favorites := Distinct(importedFavorites);
      recentSearches := importedSearches;
    }

    /** `localStorage.removeItem(key)` on the cache store. */
    method RemoveCacheItem(key: string)
      requires Valid()
      modifies this`cacheKeys, this`cacheStore
      ensures Valid()
      ensures cacheKeys == Remove(old(cacheKeys), key)
      ensures cacheStore == old(cacheStore) - {key}
    {
      cacheKeys := Remove(cacheKeys, key);
      cacheStore := cacheStore - {key};
    }

    /** `localStorage.removeItem` on the oldest cache key. */
    method RemoveOldestItem()
      requires Valid() && cacheKeys != []
      modifies this`cacheKeys, this`cacheStore
      ensures Valid()
      ensures cacheKeys == old(cacheKeys)[1..]
      ensures cacheStore == old(cacheStore) - {old(cacheKeys)[0]}
    {
      RemoveFirstDistinct(cacheKeys);
      RemoveCacheItem(cacheKeys[0]);
    }

    /** Removes the 10 oldest cache entries once there are 50 or more; otherwise nothing changes. */
    method EvictOldest()
      requires Valid()
      modifies this`cacheKeys, this`cacheStore
      ensures Valid()
      ensures cacheKeys == old(cacheKeys)[|EvictedKeys(old(cacheKeys))|..]
      ensures cacheStore == old(cacheStore) - KeySet(EvictedKeys(old(cacheKeys)))
    {
      var victims := EvictedKeys(cacheKeys);
      var i := 0;
      while i < |victims|
        invariant 0 <= i <= |victims|
        invariant Valid()
        invariant cacheKeys == old(cacheKeys)[i..]
        invariant cacheStore == old(cacheStore) - KeySet(victims[..i])
      {
        assert cacheKeys[0] == victims[i];
        RemoveOldestItem();
        KeySetSnoc(victims, i);
        assert old(cacheKeys)[i..][1..] == old(cacheKeys)[i + 1..];
        i := i + 1;
      }
      assert victims[..i] == victims;
    }

    /**
     * `filteredConditions`: a stored result for the current key is returned as it is (even if the
     * notes changed since); otherwise the filter result is computed, the 10 oldest entries are
     * removed when there are 50 or more, and the result is stored under the key.
     */
    method FilteredConditions() returns (result: seq<Condition>)
      requires Valid()
      modifies this`cacheKeys, this`cacheStore
      ensures Valid()
      ensures var key := CacheKey(CurrentQuery(), favorites);
              if key in old(cacheStore) then
                && result == old(cacheStore)[key]
                && cacheKeys == old(cacheKeys) && cacheStore == old(cacheStore)
              else
                && result == Filter(conditions, CurrentQuery(), notes, FavoriteSet())
                && cacheKeys == old(cacheKeys)[|EvictedKeys(old(cacheKeys))|..] + [key]
                && cacheStore == (old(cacheStore) - KeySet(EvictedKeys(old(cacheKeys))))[key := result]
      ensures |old(cacheKeys)| <= CacheEntryLimit ==> |cacheKeys| <= CacheEntryLimit
    {
      var key := CacheKey(CurrentQuery(), favorites);
      if key in cacheStore {
        result := cacheStore[key];
        return;
      }
      result := Filter(conditions, CurrentQuery(), notes, FavoriteSet());
      EvictOldest();
      cacheKeys := cacheKeys + [key];
      cacheStore := cacheStore[key := result];
    }
  }
}
