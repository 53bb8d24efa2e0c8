/**
 * The search box of components/SearchAutocomplete.tsx: suggestions built facet by facet
 * (condition names, ICD-10 codes, drugs, keywords), de-duplicated by kind and value and
 * capped at 8, or the recent searches for short input; and the open/selected-index state
 * machine driven by the keyboard, clicks, input changes and focus.
 */
module SearchAutocomplete {
  import opened Wrappers
  import opened Text
  import opened Records

  /** The suggestion's `type`. */
  datatype SuggestionKind = ConditionName | Icd10 | Drug | Keyword | Recent

  /** A suggestion: what it inserts (`value`), what it shows (`label`, here `display`) and the condition it came from. */
  datatype Suggestion = Suggestion(kind: SuggestionKind, value: string, display: string, source: Option<Condition>)

  /** The number of recent searches offered for short input. */
  const RecentSuggestionLimit: nat := 5
  /** The number of suggestions offered otherwise. */
  const SuggestionLimit: nat := 8

  // ---------------------------------------------------------------------------
  // The suggestion of each facet

  function NameSuggestion(c: Condition): Suggestion {
    Suggestion(ConditionName, c.name, c.name, Some(c))
  }

  function Icd10Suggestion(c: Condition): Suggestion {
    Suggestion(Icd10, c.icd10Code, c.icd10Code + " - " + c.name, Some(c))
  }

  function AdultDrugSuggestion(c: Condition): Suggestion {
    Suggestion(Drug, c.adultTreatment.drugName, c.adultTreatment.drugName + " (for " + c.name + ")", Some(c))
  }

  function PedsDrugSuggestion(c: Condition, t: Treatment): Suggestion {
    Suggestion(Drug, t.drugName, t.drugName + " (pediatric for " + c.name + ")", Some(c))
  }

  function KeywordSuggestion(c: Condition, keyword: string): Suggestion {
    Suggestion(Keyword, keyword, keyword + " (related to " + c.name + ")", Some(c))
  }

  /**
   * `x` is a dataset suggestion for the lower-cased term `q`: it came from a condition of the
   * dataset, its value is the field of that condition its kind names (a drug of either
   * treatment, one of the keywords), its label is built from it, and the value, lower-cased,
   * contains `q`.
   */
  predicate Matched(x: Suggestion, conds: seq<Condition>, q: string) {
    && x.source.Some? && x.source.value in conds
    && Contains(ToLower(x.value), q)
    && var c := x.source.value;
       match x.kind
       case ConditionName => x == NameSuggestion(c)
       case Icd10 => x == Icd10Suggestion(c)
       case Drug => x == AdultDrugSuggestion(c) || (c.pedsTreatment.Some? && x == PedsDrugSuggestion(c, c.pedsTreatment.value))
       case Keyword => x.value in c.keywords && x == KeywordSuggestion(c, x.value)
       case Recent => false
  }

  // ---------------------------------------------------------------------------
  // The facets, each in dataset order

  /** The condition-name suggestions for `q`. */
  function NameSuggestions(conds: seq<Condition>, q: string): seq<Suggestion> {
    if conds == [] then []
    else
      var c := conds[|conds| - 1];
      NameSuggestions(conds[..|conds| - 1], q) + (if Contains(ToLower(c.name), q) then [NameSuggestion(c)] else [])
  }

  /** The ICD-10 suggestions for `q`. */
  function Icd10Suggestions(conds: seq<Condition>, q: string): seq<Suggestion> {
    if conds == [] then []
    else
      var c := conds[|conds| - 1];
      Icd10Suggestions(conds[..|conds| - 1], q) + (if Contains(ToLower(c.icd10Code), q) then [Icd10Suggestion(c)] else [])
  }

  /** The drug suggestions of one condition: the adult drug, then the pediatric one. */
  function DrugHits(c: Condition, q: string): seq<Suggestion> {
    (if Contains(ToLower(c.adultTreatment.drugName), q) then [AdultDrugSuggestion(c)] else [])
    + (if c.pedsTreatment.Some? && Contains(ToLower(c.pedsTreatment.value.drugName), q)
       then [PedsDrugSuggestion(c, c.pedsTreatment.value)] else [])
  }

  /** The drug suggestions for `q`. */
  function DrugSuggestions(conds: seq<Condition>, q: string): seq<Suggestion> {
    if conds == [] then []
    else DrugSuggestions(conds[..|conds| - 1], q) + DrugHits(conds[|conds| - 1], q)
  }

  /** The keyword suggestions of condition `c`, from the keywords `kws` (a prefix of its list). */
  function KeywordHits(c: Condition, kws: seq<string>, q: string): seq<Suggestion> {
    if kws == [] then []
    else
      var k := kws[|kws| - 1];
      KeywordHits(c, kws[..|kws| - 1], q) + (if Contains(ToLower(k), q) then [KeywordSuggestion(c, k)] else [])
  }

  /** The keyword suggestions for `q`. */
  function KeywordSuggestions(conds: seq<Condition>, q: string): seq<Suggestion> {
    if conds == [] then []
    else
      var c := conds[|conds| - 1];
      KeywordSuggestions(conds[..|conds| - 1], q) + KeywordHits(c, c.keywords, q)
  }

  /** Every name suggestion is a name match, and every condition whose name matches has one. */
  lemma {:induction false} NameSuggestionsExact(conds: seq<Condition>, q: string)
    ensures forall i :: 0 <= i < |NameSuggestions(conds, q)| ==>
              Matched(NameSuggestions(conds, q)[i], conds, q)
    ensures forall c :: c in conds && Contains(ToLower(c.name), q) ==> NameSuggestion(c) in NameSuggestions(conds, q)
  {
    if conds != [] {
      var init := conds[..|conds| - 1];
      NameSuggestionsExact(init, q);
      assert conds == init + [conds[|conds| - 1]];
    }
  }

  /** Every ICD-10 suggestion is a code match, and every condition whose code matches has one. */
  lemma {:induction false} Icd10SuggestionsExact(conds: seq<Condition>, q: string)
    ensures forall i :: 0 <= i < |Icd10Suggestions(conds, q)| ==>
              Matched(Icd10Suggestions(conds, q)[i], conds, q)
    ensures forall c :: c in conds && Contains(ToLower(c.icd10Code), q) ==> Icd10Suggestion(c) in Icd10Suggestions(conds, q)
  {
    if conds != [] {
      var init := conds[..|conds| - 1];
      Icd10SuggestionsExact(init, q);
      assert conds == init + [conds[|conds| - 1]];
    }
  }

  /** Every drug suggestion is a match of the adult or the pediatric drug of a condition. */
  lemma {:induction false} DrugSuggestionsMatched(conds: seq<Condition>, q: string)
    ensures forall i :: 0 <= i < |DrugSuggestions(conds, q)| ==>
              Matched(DrugSuggestions(conds, q)[i], conds, q)
  {
    if conds != [] {
      var init := conds[..|conds| - 1];
      var c := conds[|conds| - 1];
      DrugSuggestionsMatched(init, q);
      assert conds == init + [c];
      var hits := DrugHits(c, q);
      assert forall i :: 0 <= i < |hits| ==> hits[i].kind == Drug && Matched(hits[i], conds, q);
    }
  }

  /** Every condition whose adult drug matches has its suggestion. */
  lemma {:induction false} AdultDrugsSuggested(conds: seq<Condition>, q: string)
    ensures forall c :: c in conds && Contains(ToLower(c.adultTreatment.drugName), q) ==>
              AdultDrugSuggestion(c) in DrugSuggestions(conds, q)
  {
    if conds != [] {
      var init := conds[..|conds| - 1];
      var c := conds[|conds| - 1];
      AdultDrugsSuggested(init, q);
      assert conds == init + [c];
      assert Contains(ToLower(c.adultTreatment.drugName), q) ==> AdultDrugSuggestion(c) in DrugHits(c, q);
    }
  }

  /** Every condition whose pediatric drug matches has its suggestion. */
  lemma {:induction false} PedsDrugsSuggested(conds: seq<Condition>, q: string)
    ensures forall c :: c in conds && c.pedsTreatment.Some? && Contains(ToLower(c.pedsTreatment.value.drugName), q) ==>
              PedsDrugSuggestion(c, c.pedsTreatment.value) in DrugSuggestions(conds, q)
  {
    if conds != [] {
      var init := conds[..|conds| - 1];
      var c := conds[|conds| - 1];
      PedsDrugsSuggested(init, q);
      assert conds == init + [c];
      assert c.pedsTreatment.Some? && Contains(ToLower(c.pedsTreatment.value.drugName), q) ==>
               PedsDrugSuggestion(c, c.pedsTreatment.value) in DrugHits(c, q);
    }
  }

  /**
   * Every drug suggestion is a match of the adult or the pediatric drug, and every condition
   * whose adult drug, or pediatric drug, matches has the suggestion for it.
   */
  lemma DrugSuggestionsExact(conds: seq<Condition>, q: string)
    ensures forall i :: 0 <= i < |DrugSuggestions(conds, q)| ==>
              Matched(DrugSuggestions(conds, q)[i], conds, q)
    ensures forall c :: c in conds && Contains(ToLower(c.adultTreatment.drugName), q) ==>
              AdultDrugSuggestion(c) in DrugSuggestions(conds, q)
    ensures forall c :: c in conds && c.pedsTreatment.Some? && Contains(ToLower(c.pedsTreatment.value.drugName), q) ==>
              PedsDrugSuggestion(c, c.pedsTreatment.value) in DrugSuggestions(conds, q)
  {
    DrugSuggestionsMatched(conds, q);
    AdultDrugsSuggested(conds, q);
    PedsDrugsSuggested(conds, q);
  }

  /** Every keyword suggestion of `c` is a matching keyword of `kws`, and every matching keyword has one. */
  lemma {:induction false} KeywordHitsExact(c: Condition, kws: seq<string>, q: string)
    ensures forall i :: 0 <= i < |KeywordHits(c, kws, q)| ==>
              && KeywordHits(c, kws, q)[i].value in kws
              && KeywordHits(c, kws, q)[i] == KeywordSuggestion(c, KeywordHits(c, kws, q)[i].value)
              && Contains(ToLower(KeywordHits(c, kws, q)[i].value), q)
    ensures forall k :: k in kws && Contains(ToLower(k), q) ==> KeywordSuggestion(c, k) in KeywordHits(c, kws, q)
  {
    if kws != [] {
      var init := kws[..|kws| - 1];
      KeywordHitsExact(c, init, q);
      assert kws == init + [kws[|kws| - 1]];
    }
  }

  /** Every keyword suggestion is a keyword match, and every matching keyword of every condition has one. */
  lemma {:induction false} KeywordSuggestionsExact(conds: seq<Condition>, q: string)
    ensures forall i :: 0 <= i < |KeywordSuggestions(conds, q)| ==>
              Matched(KeywordSuggestions(conds, q)[i], conds, q)
    ensures forall c, k :: c in conds && k in c.keywords && Contains(ToLower(k), q) ==>
              KeywordSuggestion(c, k) in KeywordSuggestions(conds, q)
  {
    if conds != [] {
      var init := conds[..|conds| - 1];
      var c := conds[|conds| - 1];
      KeywordSuggestionsExact(init, q);
      KeywordHitsExact(c, c.keywords, q);
      assert conds == init + [c];
      var hits := KeywordHits(c, c.keywords, q);
      assert forall i :: 0 <= i < |hits| ==> hits[i].kind == Keyword && Matched(hits[i], conds, q);
    }
  }

  /** `newSuggestions` before de-duplication: the four facets one after another. */
  function Candidates(conds: seq<Condition>, q: string): seq<Suggestion> {
    NameSuggestions(conds, q) + Icd10Suggestions(conds, q) + DrugSuggestions(conds, q) + KeywordSuggestions(conds, q)
  }

  /** The position of a kind in the facet order. */
  function KindRank(k: SuggestionKind): nat {
    match k
    case ConditionName => 0
    case Icd10 => 1
    case Drug => 2
    case Keyword => 3
    case Recent => 4
  }

  /** The suggestions are grouped by facet, in facet order. */
  predicate FacetOrdered(s: seq<Suggestion>) {
    forall i, j :: 0 <= i < j < |s| ==> KindRank(s[i].kind) <= KindRank(s[j].kind)
  }

  /** `s` holds suggestions of kind `k` only. */
  predicate AllOfKind(s: seq<Suggestion>, k: SuggestionKind) {
    forall i :: 0 <= i < |s| ==> s[i].kind == k
  }

  lemma AllOfKindConcat(a: seq<Suggestion>, b: seq<Suggestion>, k: SuggestionKind)
    requires AllOfKind(a, k) && AllOfKind(b, k)
    ensures AllOfKind(a + b, k)
  {
  }

  /** Each facet holds suggestions of its own kind only. */
  lemma {:induction false} NameKinds(conds: seq<Condition>, q: string)
    ensures AllOfKind(NameSuggestions(conds, q), ConditionName)
  {
    if conds != [] {
      NameKinds(conds[..|conds| - 1], q);
    }
  }

  lemma {:induction false} Icd10Kinds(conds: seq<Condition>, q: string)
    ensures AllOfKind(Icd10Suggestions(conds, q), Icd10)
  {
    if conds != [] {
      Icd10Kinds(conds[..|conds| - 1], q);
    }
  }

  lemma {:induction false} DrugKinds(conds: seq<Condition>, q: string)
    ensures AllOfKind(DrugSuggestions(conds, q), Drug)
  {
    if conds != [] {
      DrugKinds(conds[..|conds| - 1], q);
      AllOfKindConcat(DrugSuggestions(conds[..|conds| - 1], q), DrugHits(conds[|conds| - 1], q), Drug);
    }
  }

  lemma {:induction false} KeywordHitKinds(c: Condition, kws: seq<string>, q: string)
    ensures AllOfKind(KeywordHits(c, kws, q), Keyword)
  {
    if kws != [] {
      KeywordHitKinds(c, kws[..|kws| - 1], q);
    }
  }

  lemma {:induction false} KeywordKinds(conds: seq<Condition>, q: string)
    ensures AllOfKind(KeywordSuggestions(conds, q), Keyword)
  {
    if conds != [] {
      var c := conds[|conds| - 1];
      KeywordKinds(conds[..|conds| - 1], q);
      KeywordHitKinds(c, c.keywords, q);
      AllOfKindConcat(KeywordSuggestions(conds[..|conds| - 1], q), KeywordHits(c, c.keywords, q), Keyword);
    }
  }

  /** Every suggestion of `s` is a dataset match for `q`. */
  predicate AllMatched(s: seq<Suggestion>, conds: seq<Condition>, q: string) {
    forall i :: 0 <= i < |s| ==> Matched(s[i], conds, q)
  }

  lemma AllMatchedConcat(a: seq<Suggestion>, b: seq<Suggestion>, conds: seq<Condition>, q: string)
    requires AllMatched(a, conds, q) && AllMatched(b, conds, q)
    ensures AllMatched(a + b, conds, q)
  {
    forall i | 0 <= i < |a + b| ensures Matched((a + b)[i], conds, q) {
      if i < |a| {
        assert (a + b)[i] == a[i];
      } else {
        assert (a + b)[i] == b[i - |a|];
      }
    }
  }

  /** Before de-duplication every suggestion is a dataset match. */
  lemma CandidatesMatched(conds: seq<Condition>, q: string)
    ensures AllMatched(Candidates(conds, q), conds, q)
  {
    NameSuggestionsExact(conds, q);
    Icd10SuggestionsExact(conds, q);
    DrugSuggestionsExact(conds, q);
    KeywordSuggestionsExact(conds, q);
    var n, d, k, w := NameSuggestions(conds, q), Icd10Suggestions(conds, q), DrugSuggestions(conds, q), KeywordSuggestions(conds, q);
    AllMatchedConcat(n, d, conds, q);
    AllMatchedConcat(n + d, k, conds, q);
    AllMatchedConcat(n + d + k, w, conds, q);
  }

  /** Before de-duplication the facets come in order: names, codes, drugs, keywords. */
  lemma CandidatesOrdered(conds: seq<Condition>, q: string)
    ensures FacetOrdered(Candidates(conds, q))
  {
    NameKinds(conds, q);
    Icd10Kinds(conds, q);
    DrugKinds(conds, q);
    KeywordKinds(conds, q);
    var n, d, k, w := NameSuggestions(conds, q), Icd10Suggestions(conds, q), DrugSuggestions(conds, q), KeywordSuggestions(conds, q);
    var s := n + d + k + w;
    forall i | 0 <= i < |s|
      ensures KindRank(s[i].kind) == if i < |n| then 0 else if i < |n| + |d| then 1 else if i < |n| + |d| + |k| then 2 else 3
    {
      if i < |n| {
        assert s[i] == n[i];
      } else if i < |n| + |d| {
        assert s[i] == d[i - |n|];
      } else if i < |n| + |d| + |k| {
        assert s[i] == k[i - |n| - |d|];
      } else {
        assert s[i] == w[i - |n| - |d| - |k|];
      }
    }
  }

  // ---------------------------------------------------------------------------
  // De-duplication

  /** The identity of a suggestion for de-duplication. */
  function Key(x: Suggestion): (SuggestionKind, string) {
    (x.kind, x.value)
  }

  /** The keys occurring in `s`. */
  function KeysOf(s: seq<Suggestion>): set<(SuggestionKind, string)> {
    set i | 0 <= i < |s| :: Key(s[i])
  }

  /** No two suggestions share a kind and a value. */
  predicate UniqueKeys(s: seq<Suggestion>) {
    forall i, j :: 0 <= i < j < |s| ==> Key(s[i]) != Key(s[j])
  }

  /**
   * The filter by `index === self.findIndex(same kind and value)` over `rest`, where `seen`
   * holds the elements of `self` before `rest`: an element is kept when no earlier one has its key.
   */
  function DedupAfter(seen: seq<Suggestion>, rest: seq<Suggestion>): seq<Suggestion>
    decreases |rest|
  {
    if rest == [] then []
    else if Key(rest[0]) in KeysOf(seen) then DedupAfter(seen + [rest[0]], rest[1..])
    else [rest[0]] + DedupAfter(seen + [rest[0]], rest[1..])
  }

  lemma KeysOfSnoc(seen: seq<Suggestion>, x: Suggestion)
    ensures KeysOf(seen + [x]) == KeysOf(seen) + {Key(x)}
  {
    var seen' := seen + [x];
    assert forall i :: 0 <= i < |seen| ==> seen'[i] == seen[i];
    assert seen'[|seen|] == x;
  }

  /** What the filter keeps are elements of `rest` whose key is not among the earlier ones. */
  lemma {:induction false} DedupAfterFromRest(seen: seq<Suggestion>, rest: seq<Suggestion>)
    ensures |DedupAfter(seen, rest)| <= |rest|
    ensures forall i :: 0 <= i < |DedupAfter(seen, rest)| ==>
              DedupAfter(seen, rest)[i] in rest && Key(DedupAfter(seen, rest)[i]) !in KeysOf(seen)
    decreases |rest|
  {
    if rest != [] {
      var x := rest[0];
      KeysOfSnoc(seen, x);
      DedupAfterFromRest(seen + [x], rest[1..]);
      var tail := DedupAfter(seen + [x], rest[1..]);
      assert forall i :: 0 <= i < |tail| ==> tail[i] in rest;
    }
  }

  /** No key is kept twice. */
  lemma {:induction false} DedupAfterUnique(seen: seq<Suggestion>, rest: seq<Suggestion>)
    ensures UniqueKeys(DedupAfter(seen, rest))
    decreases |rest|
  {
    if rest != [] {
      var x := rest[0];
      KeysOfSnoc(seen, x);
      DedupAfterUnique(seen + [x], rest[1..]);
      DedupAfterFromRest(seen + [x], rest[1..]);
    }
  }

  /** Every key of `rest` is among the earlier ones or kept. */
  lemma {:induction false} DedupAfterCovers(seen: seq<Suggestion>, rest: seq<Suggestion>)
    ensures forall i :: 0 <= i < |rest| ==> Key(rest[i]) in KeysOf(seen) || Key(rest[i]) in KeysOf(DedupAfter(seen, rest))
    decreases |rest|
  {
    if rest != [] {
      var x := rest[0];
      KeysOfSnoc(seen, x);
      DedupAfterCovers(seen + [x], rest[1..]);
      var tail := DedupAfter(seen + [x], rest[1..]);
      assert forall i :: 1 <= i < |rest| ==> rest[i] == rest[1..][i - 1];
      if Key(x) !in KeysOf(seen) {
        var r := [x] + tail;
        assert Key(x) in KeysOf(r) by { assert Key(r[0]) == Key(x); }
        forall i | 0 <= i < |tail| ensures Key(tail[i]) in KeysOf(r) {
          assert Key(r[i + 1]) == Key(tail[i]);
        }
      }
    }
  }

  /** The filter keeps the facet order. */
  lemma {:induction false} DedupAfterOrdered(seen: seq<Suggestion>, rest: seq<Suggestion>)
    ensures FacetOrdered(rest) ==> FacetOrdered(DedupAfter(seen, rest))
    decreases |rest|
  {
    if rest != [] && FacetOrdered(rest) {
      var x := rest[0];
      DedupAfterOrdered(seen + [x], rest[1..]);
      DedupAfterFromRest(seen + [x], rest[1..]);
      var tail := DedupAfter(seen + [x], rest[1..]);
      if Key(x) !in KeysOf(seen) {
        forall i | 0 <= i < |tail| ensures KindRank(x.kind) <= KindRank(tail[i].kind) {
          var j :| 0 <= j < |rest[1..]| && rest[1..][j] == tail[i];
          assert rest[j + 1] == tail[i];
        }
      }
    }
  }

  /** `findIndex`: the position of the first suggestion in `s` with key `k`. */
  function FirstWithKey(s: seq<Suggestion>, k: (SuggestionKind, string)): (i: nat)
    requires k in KeysOf(s)
    ensures i < |s| && Key(s[i]) == k && k !in KeysOf(s[..i])
  {
    if Key(s[0]) == k then
      assert KeysOf(s[..0]) == {};
      0
    else
      KeysOfTail(s);
      var i := 1 + FirstWithKey(s[1..], k);
      KeysOfTail(s[..i]);
      assert s[..i][1..] == s[1..][..i - 1];
      i
  }

  /** A key of the tail that differs from the head's is a key of `s`, first found one position later. */
  lemma KeysOfTail(s: seq<Suggestion>)
    requires s != []
    ensures KeysOf(s) == {Key(s[0])} + KeysOf(s[1..])
  {
    assert s == [s[0]] + s[1..];
    forall k | k in KeysOf(s) ensures k in {Key(s[0])} + KeysOf(s[1..]) {
      var m :| 0 <= m < |s| && Key(s[m]) == k;
      if m > 0 {
        assert s[1..][m - 1] == s[m];
      }
    }
    forall k | k in KeysOf(s[1..]) ensures k in KeysOf(s) {
      var m :| 0 <= m < |s[1..]| && Key(s[1..][m]) == k;
      assert s[m + 1] == s[1..][m];
    }
  }

  /** A key found in the tail but not at the head is first found one position later in `s`. */
  lemma FirstWithKeyLater(s: seq<Suggestion>, k: (SuggestionKind, string))
    requires s != [] && k in KeysOf(s[1..]) && k != Key(s[0])
    ensures k in KeysOf(s) && FirstWithKey(s, k) == 1 + FirstWithKey(s[1..], k)
  {
    KeysOfTail(s);
  }

  /**
   * Each element of `r` is the first suggestion of its key in `s`, and the elements come in the
   * order of those first positions.
   */
  predicate FirstOfEachKeyInOrder(r: seq<Suggestion>, s: seq<Suggestion>) {
    && (forall i :: 0 <= i < |r| ==> Key(r[i]) in KeysOf(s) && r[i] == s[FirstWithKey(s, Key(r[i]))])
    && (forall i, j :: 0 <= i < j < |r| ==> FirstWithKey(s, Key(r[i])) < FirstWithKey(s, Key(r[j])))
  }

  /** What the filter keeps of `rest` are the first suggestions of their keys, in order. */
  lemma {:induction false} DedupAfterFirstOfKey(seen: seq<Suggestion>, rest: seq<Suggestion>)
    ensures FirstOfEachKeyInOrder(DedupAfter(seen, rest), rest)
    decreases |rest|
  {
    if rest != [] {
      var x := rest[0];
      var tail := DedupAfter(seen + [x], rest[1..]);
      DedupAfterFirstOfKey(seen + [x], rest[1..]);
      DedupAfterFromRest(seen + [x], rest[1..]);
      KeysOfSnoc(seen, x);
      FirstOfEachKeyShift(tail, rest);
      if Key(x) !in KeysOf(seen) {
        FirstOfEachKeyCons(tail, rest);
      }
    }
  }

  /** Suggestions that are first of their keys in the tail, none with the head's key, are so in the whole. */
  lemma FirstOfEachKeyShift(tail: seq<Suggestion>, rest: seq<Suggestion>)
    requires rest != [] && FirstOfEachKeyInOrder(tail, rest[1..])
    requires forall i :: 0 <= i < |tail| ==> Key(tail[i]) != Key(rest[0])
    ensures FirstOfEachKeyInOrder(tail, rest)
    ensures forall i :: 0 <= i < |tail| ==> FirstWithKey(rest, Key(tail[i])) >= 1
  {
    forall i | 0 <= i < |tail|
      ensures Key(tail[i]) in KeysOf(rest)
      ensures FirstWithKey(rest, Key(tail[i])) == 1 + FirstWithKey(rest[1..], Key(tail[i]))
    {
      FirstWithKeyLater(rest, Key(tail[i]));
    }
  }

  /** The head of `rest` in front of later first-of-key suggestions keeps them first of their keys, in order. */
  lemma FirstOfEachKeyCons(tail: seq<Suggestion>, rest: seq<Suggestion>)
    requires rest != [] && FirstOfEachKeyInOrder(tail, rest)
    requires forall i :: 0 <= i < |tail| ==> FirstWithKey(rest, Key(tail[i])) >= 1
    ensures FirstOfEachKeyInOrder([rest[0]] + tail, rest)
  {
    HeadIsFirstOfKey(rest);
    var d := [rest[0]] + tail;
    assert forall i :: 1 <= i < |d| ==> d[i] == tail[i - 1];
  }

  /** The head of a sequence is the first suggestion of its key. */
  lemma HeadIsFirstOfKey(s: seq<Suggestion>)
    requires s != []
    ensures Key(s[0]) in KeysOf(s) && FirstWithKey(s, Key(s[0])) == 0
  {
    assert Key(s[0]) == Key(s[0]);
  }

  /**
   * `suggestions.filter((s, index, self) => index === self.findIndex(...))`: the first suggestion
   * of each key, in the order of those first occurrences. With the key set fixed and no key
   * repeated, these clauses leave exactly one possible result.
   */
  function Dedup(s: seq<Suggestion>): (r: seq<Suggestion>)
    ensures |r| <= |s| && UniqueKeys(r)
    ensures forall i :: 0 <= i < |r| ==> r[i] in s
    ensures KeysOf(r) == KeysOf(s)
    ensures FacetOrdered(s) ==> FacetOrdered(r)
    ensures IsSubsequence(r, s)
    ensures FirstOfEachKeyInOrder(r, s)
  {
    DedupAfterIsSubsequence([], s);
    DedupAfterFirstOfKey([], s);
    DedupAfterFromRest([], s);
    DedupAfterUnique([], s);
    DedupAfterCovers([], s);
    DedupAfterOrdered([], s);
    var r := DedupAfter([], s);
    assert KeysOf([]) == {};
    assert KeysOf(r) <= KeysOf(s) by {
      forall k | k in KeysOf(r) ensures k in KeysOf(s) {
        var i :| 0 <= i < |r| && Key(r[i]) == k;
      }
    }
    r
  }

  /** De-duplication keeps the first element of each key and the relative order: the result is a subsequence. */
  lemma {:induction false} DedupAfterIsSubsequence(seen: seq<Suggestion>, rest: seq<Suggestion>)
    ensures IsSubsequence(DedupAfter(seen, rest), rest)
    decreases |rest|
  {
    if rest != [] {
      var x := rest[0];
      DedupAfterIsSubsequence(seen + [x], rest[1..]);
      var tail := DedupAfter(seen + [x], rest[1..]);
      if Key(x) in KeysOf(seen) {
        SubsequenceCons(tail, rest[1..], x);
        assert rest == [x] + rest[1..];
      } else {
        assert ([x] + tail)[1..] == tail;
      }
    }
  }

  /** The first suggestion of each key is the one kept. */
  lemma DedupKeepsFirst(s: seq<Suggestion>)
    requires s != []
    ensures Dedup(s) != [] && Dedup(s)[0] == s[0]
  {
    assert KeysOf([]) == {};
  }

  // ---------------------------------------------------------------------------
  // The suggestion list

  /** The recent searches offered as suggestions: value and label are the search itself. */
  function RecentSuggestions(recent: seq<string>): (r: seq<Suggestion>)
    ensures |r| == |recent|
    ensures forall i :: 0 <= i < |r| ==> r[i] == Suggestion(Recent, recent[i], recent[i], None)
  {
    seq(|recent|, i requires 0 <= i < |recent| => Suggestion(Recent, recent[i], recent[i], None))
  }

  /**
   * What the effect sets as `suggestions`: for a raw term shorter than 2 UTF-16 code units the
   * first 5 recent searches; otherwise the first 8 de-duplicated dataset matches.
   */
  function Suggestions(term: string, conds: seq<Condition>, recent: seq<string>): (r: seq<Suggestion>)
    ensures JsLength(term) < 2 ==> |r| <= RecentSuggestionLimit && |r| <= |recent|
    ensures JsLength(term) < 2 ==> forall i :: 0 <= i < |r| ==> r[i] == Suggestion(Recent, recent[i], recent[i], None)
    ensures JsLength(term) < 2 ==> |r| == (if |recent| < RecentSuggestionLimit then |recent| else RecentSuggestionLimit)
    ensures JsLength(term) >= 2 ==> |r| <= SuggestionLimit && UniqueKeys(r) && FacetOrdered(r)
    ensures JsLength(term) >= 2 ==> forall i :: 0 <= i < |r| ==> Matched(r[i], conds, ToLower(term))
    ensures JsLength(term) >= 2 ==> r == Take(Dedup(Candidates(conds, ToLower(term))), SuggestionLimit)
  {
    if JsLength(term) < 2 then RecentSuggestions(Take(recent, RecentSuggestionLimit))
    else
      var c := Candidates(conds, ToLower(term));
      CandidatesMatched(conds, ToLower(term));
      CandidatesOrdered(conds, ToLower(term));
      var d := Dedup(c);
      var r := Take(d, SuggestionLimit);
      assert forall i :: 0 <= i < |r| ==> r[i] == d[i];
      r
  }

  /** A sequence whose keys are all different has as many keys as elements. */
  lemma {:induction false} UniqueKeysCard(s: seq<Suggestion>)
    requires UniqueKeys(s)
    ensures |KeysOf(s)| == |s|
  {
    if s != [] {
      KeysOfTail(s);
      assert forall i :: 0 <= i < |s[1..]| ==> s[1..][i] == s[i + 1];
      UniqueKeysCard(s[1..]);
      assert Key(s[0]) !in KeysOf(s[1..]);
    }
  }

  /**
   * With at most 8 distinct matches (by kind and value) every one of them is offered; with
   * more, exactly 8 are.
   */
  lemma OfferedMatches(term: string, conds: seq<Condition>, recent: seq<string>)
    requires JsLength(term) >= 2
    ensures |KeysOf(Candidates(conds, ToLower(term)))| <= SuggestionLimit ==>
              KeysOf(Suggestions(term, conds, recent)) == KeysOf(Candidates(conds, ToLower(term)))
    ensures |KeysOf(Candidates(conds, ToLower(term)))| >= SuggestionLimit ==>
              |Suggestions(term, conds, recent)| == SuggestionLimit
  {
    UniqueKeysCard(Dedup(Candidates(conds, ToLower(term))));
  }

  /** The key of a member is among the keys. */
  lemma KeyOfMember(x: Suggestion, s: seq<Suggestion>)
    requires x in s
    ensures Key(x) in KeysOf(s)
  {
    var k :| 0 <= k < |s| && s[k] == x;
    assert Key(s[k]) in KeysOf(s);
  }

  /** With at most 8 distinct matches, a condition whose name contains the term is offered by name. */
  lemma NameMatchOffered(term: string, conds: seq<Condition>, recent: seq<string>, c: Condition)
    requires JsLength(term) >= 2
    requires |KeysOf(Candidates(conds, ToLower(term)))| <= SuggestionLimit
    requires c in conds && Contains(ToLower(c.name), ToLower(term))
    ensures (ConditionName, c.name) in KeysOf(Suggestions(term, conds, recent))
  {
    var q := ToLower(term);
    NameSuggestionsExact(conds, q);
    assert NameSuggestion(c) in Candidates(conds, q);
    KeyOfMember(NameSuggestion(c), Candidates(conds, q));
    OfferedMatches(term, conds, recent);
  }

  /** In the recent branch no dataset suggestion appears, whatever the dataset. */
  lemma ShortTermIgnoresDataset(term: string, conds1: seq<Condition>, conds2: seq<Condition>, recent: seq<string>)
    requires JsLength(term) < 2
    ensures Suggestions(term, conds1, recent) == Suggestions(term, conds2, recent)
    ensures forall i :: 0 <= i < |Suggestions(term, conds1, recent)| ==> Suggestions(term, conds1, recent)[i].source == None
  {
  }

  /** Deduplication keeps the first two entries when their keys differ. */
  lemma DedupKeepsFirstTwo(s: seq<Suggestion>)
    requires |s| >= 2 && Key(s[0]) != Key(s[1])
    ensures |Dedup(s)| >= 2 && Dedup(s)[0] == s[0] && Dedup(s)[1] == s[1]
  {
    KeysOfSnoc([], s[0]);
    assert [] + [s[0]] == [s[0]];
    assert DedupAfter([], s) == [s[0]] + DedupAfter([s[0]], s[1..]);
    assert s[1..][0] == s[1];
    assert DedupAfter([s[0]], s[1..]) == [s[1]] + DedupAfter([s[0]] + [s[1]], s[1..][1..]);
  }

  /**
   * When the condition itself is the only match, its name comes before its ICD-10 code:
   * the facets are not interleaved by condition.
   */
  lemma NameBeforeCode(c: Condition, term: string)
    requires JsLength(term) >= 2
    requires Contains(ToLower(c.name), ToLower(term)) && Contains(ToLower(c.icd10Code), ToLower(term))
    ensures |Suggestions(term, [c], [])| >= 2
    ensures Suggestions(term, [c], [])[0] == NameSuggestion(c)
    ensures Suggestions(term, [c], [])[1] == Icd10Suggestion(c)
  {
    var q := ToLower(term);
    CandidatesOfOne(c, q);
    var d := Dedup(Candidates([c], q));
    DedupKeepsFirstTwo(Candidates([c], q));
    var r := Suggestions(term, [c], []);
    assert r == Take(d, SuggestionLimit);
    assert r[0] == d[0] && r[1] == d[1];
  }

  /** The candidates of a single condition matching by name and by code start with those two. */
  lemma CandidatesOfOne(c: Condition, q: string)
    requires Contains(ToLower(c.name), q) && Contains(ToLower(c.icd10Code), q)
    ensures |Candidates([c], q)| >= 2
    ensures Candidates([c], q)[0] == NameSuggestion(c) && Candidates([c], q)[1] == Icd10Suggestion(c)
  {
    assert [c][..0] == [];
    assert NameSuggestions([c], q) == [NameSuggestion(c)];
    assert Icd10Suggestions([c], q) == [Icd10Suggestion(c)];
  }

  /** The first `forEach`: pushes a suggestion for each condition whose name contains `q`. */
  method PushNameMatches(found: seq<Suggestion>, conds: seq<Condition>, q: string) returns (r: seq<Suggestion>)
    ensures r == found + NameSuggestions(conds, q)
  {
    r := found;
    var i := 0;
    while i < |conds|
      invariant 0 <= i <= |conds|
      invariant r == found + NameSuggestions(conds[..i], q)
    {
      var c := conds[i];
      if Contains(ToLower(c.name), q) {
        r := r + [NameSuggestion(c)];
      }
      assert conds[..i + 1][..i] == conds[..i];
      i := i + 1;
    }
    assert conds[..i] == conds;
  }

  /** The second `forEach`: pushes a suggestion for each condition whose ICD-10 code contains `q`. */
  method PushIcd10Matches(found: seq<Suggestion>, conds: seq<Condition>, q: string) returns (r: seq<Suggestion>)
    ensures r == found + Icd10Suggestions(conds, q)
  {
    r := found;
    var i := 0;
    while i < |conds|
      invariant 0 <= i <= |conds|
      invariant r == found + Icd10Suggestions(conds[..i], q)
    {
      var c := conds[i];
      if Contains(ToLower(c.icd10Code), q) {
        r := r + [Icd10Suggestion(c)];
      }
      assert conds[..i + 1][..i] == conds[..i];
      i := i + 1;
    }
    assert conds[..i] == conds;
  }

  /** One more condition's drug suggestions. */
  lemma DrugSuggestionsStep(conds: seq<Condition>, q: string, i: nat)
    requires i < |conds|
    ensures DrugSuggestions(conds[..i + 1], q) == DrugSuggestions(conds[..i], q) + DrugHits(conds[i], q)
  {
    assert conds[..i + 1][..i] == conds[..i];
  }

  /** The body of the third `forEach` for one condition: its adult drug, then its pediatric drug, when they contain `q`. */
  method PushDrugHits(found: seq<Suggestion>, c: Condition, q: string) returns (r: seq<Suggestion>)
    ensures r == found + DrugHits(c, q)
  {
    r := found;
    ghost var adult := if Contains(ToLower(c.adultTreatment.drugName), q) then [AdultDrugSuggestion(c)] else [];
    if Contains(ToLower(c.adultTreatment.drugName), q) {
      r := r + [AdultDrugSuggestion(c)];
    }
    assert r == found + adult;
    if c.pedsTreatment.Some? && Contains(ToLower(c.pedsTreatment.value.drugName), q) {
      r := r + [PedsDrugSuggestion(c, c.pedsTreatment.value)];
    }
  }

  /** The third `forEach`: pushes the adult, then the pediatric, drug of each condition when it contains `q`. */
  method PushDrugMatches(found: seq<Suggestion>, conds: seq<Condition>, q: string) returns (r: seq<Suggestion>)
    ensures r == found + DrugSuggestions(conds, q)
  {
    r := found;
    var i := 0;
    while i < |conds|
      invariant 0 <= i <= |conds|
      invariant r == found + DrugSuggestions(conds[..i], q)
    {
      r := PushDrugHits(r, conds[i], q);
      DrugSuggestionsStep(conds, q, i);
      i := i + 1;
    }
    assert conds[..i] == conds;
  }

  /** The inner `forEach` over one condition's keywords. */
  method PushKeywordHits(found: seq<Suggestion>, c: Condition, q: string) returns (r: seq<Suggestion>)
    ensures r == found + KeywordHits(c, c.keywords, q)
  {
    r := found;
    var j := 0;
    while j < |c.keywords|
      invariant 0 <= j <= |c.keywords|
      invariant r == found + KeywordHits(c, c.keywords[..j], q)
    {
      var keyword := c.keywords[j];
      if Contains(ToLower(keyword), q) {
        r := r + [KeywordSuggestion(c, keyword)];
      }
      assert c.keywords[..j + 1][..j] == c.keywords[..j];
      j := j + 1;
    }
    assert c.keywords[..j] == c.keywords;
  }

  /** The fourth `forEach`: pushes a suggestion for each keyword, of each condition, that contains `q`. */
  method PushKeywordMatches(found: seq<Suggestion>, conds: seq<Condition>, q: string) returns (r: seq<Suggestion>)
    ensures r == found + KeywordSuggestions(conds, q)
  {
    r := found;
    var i := 0;
    while i < |conds|
      invariant 0 <= i <= |conds|
      invariant r == found + KeywordSuggestions(conds[..i], q)
    {
      r := PushKeywordHits(r, conds[i], q);
      assert conds[..i + 1][..i] == conds[..i];
      i := i + 1;
    }
    assert conds[..i] == conds;
  }

  /**
   * `useEffect` building the suggestions: the four `forEach` loops push into one list, which is
   * then de-duplicated and cut to 8; short input gives the recent searches instead.
   */
  method BuildSuggestions(term: string, conds: seq<Condition>, recent: seq<string>) returns (r: seq<Suggestion>)
    ensures r == Suggestions(term, conds, recent)
  {
    if JsLength(term) < 2 {
      return RecentSuggestions(Take(recent, RecentSuggestionLimit));
    }
    var found := CollectCandidates(conds, ToLower(term));
    r := Take(Dedup(found), SuggestionLimit);
  }

  /** The four `forEach` loops, one after another, pushing into `newSuggestions`. */
  method CollectCandidates(conds: seq<Condition>, q: string) returns (found: seq<Suggestion>)
    ensures found == Candidates(conds, q)
  {
    found := PushNameMatches([], conds, q);
    found := PushIcd10Matches(found, conds, q);
    found := PushDrugMatches(found, conds, q);
    found := PushKeywordMatches(found, conds, q);
  }

  // ---------------------------------------------------------------------------
  // The dropdown state machine

  /** The keys `handleKeyDown` distinguishes; every other key is `Other`. */
  datatype KeyPress = ArrowDown | ArrowUp | Enter | Escape | Other

  class Autocomplete {
    var isOpen: bool
    var selectedIndex: int
    var suggestions: seq<Suggestion>

    /** The selection is "none" (-1) or a suggestion's position. */
    ghost predicate InRange()
      reads this
    {
      -1 <= selectedIndex < |suggestions|
    }

    constructor ()
      ensures !isOpen && selectedIndex == -1 && suggestions == []
      ensures InRange()
    {
      isOpen, selectedIndex, suggestions := false, -1, [];
    }

    /** The effect re-runs on a change of term, dataset or recent searches; it leaves the selection as it is. */
    method Refresh(term: string, conds: seq<Condition>, recent: seq<string>)
      modifies this`suggestions
      ensures suggestions == Suggestions(term, conds, recent)
    {
      suggestions := BuildSuggestions(term, conds, recent);
    }

    /**
     * `handleKeyDown`. While closed every key is ignored. Down moves to `min(i + 1, len - 1)`,
     * Up to `max(i - 1, -1)`; Enter commits the selected suggestion's value when the index is a
     * position of the list, closing and resetting the selection; Escape closes and resets.
     * Returns the value passed to `onSearchSelect`, if any.
     */
    method HandleKeyDown(key: KeyPress) returns (selected: Option<string>)
      modifies this`isOpen, this`selectedIndex
      ensures !old(isOpen) ==> selected == None && isOpen == old(isOpen) && selectedIndex == old(selectedIndex)
      ensures old(isOpen) && key == ArrowDown ==>
                selected == None && isOpen
                && selectedIndex == (if old(selectedIndex) + 1 < |suggestions| - 1 then old(selectedIndex) + 1 else |suggestions| - 1)
      ensures old(isOpen) && key == ArrowUp ==>
                selected == None && isOpen
                && selectedIndex == (if old(selectedIndex) - 1 > -1 then old(selectedIndex) - 1 else -1)
      ensures old(isOpen) && key == Enter ==>
                if 0 <= old(selectedIndex) < |suggestions| then
                  selected == Some(suggestions[old(selectedIndex)].value) && !isOpen && selectedIndex == -1
                else
                  selected == None && isOpen && selectedIndex == old(selectedIndex)
      ensures old(isOpen) && key == Escape ==> selected == None && !isOpen && selectedIndex == -1
      ensures old(isOpen) && key == Other ==> selected == None && isOpen && selectedIndex == old(selectedIndex)
      ensures old(InRange()) ==> InRange()
      ensures -1 <= old(selectedIndex) ==> -1 <= selectedIndex
      ensures old(isOpen) && key == ArrowDown ==> selectedIndex < |suggestions|
    {
      selected := None;
      if !isOpen {
        return;
      }
      match key
      case ArrowDown =>
        selectedIndex := if selectedIndex + 1 < |suggestions| - 1 then selectedIndex + 1 else |suggestions| - 1;
      case ArrowUp =>
        selectedIndex := if selectedIndex - 1 > -1 then selectedIndex - 1 else -1;
      case Enter =>
        if selectedIndex >= 0 && selectedIndex < |suggestions| {
          var value := HandleSuggestionClick(suggestions[selectedIndex]);
          selected := Some(value);
        }
      case Escape =>
        isOpen := false;
        selectedIndex := -1;
      case Other =>
    }

    /** `handleSuggestionClick`: passes on the value (not the label), closes and resets the selection. */
    method HandleSuggestionClick(s: Suggestion) returns (selected: string)
      modifies this`isOpen, this`selectedIndex
      ensures selected == s.value
      ensures !isOpen && selectedIndex == -1
    {
      selected := s.value;
      isOpen := false;
      selectedIndex := -1;
    }

    /** `handleInputChange`: passes the new text on to `onSearchChange`, opens and resets the selection. */
    method HandleInputChange(value: string) returns (changed: string)
      modifies this`isOpen, this`selectedIndex
      ensures changed == value
      ensures isOpen && selectedIndex == -1
    {
      changed := value;
      isOpen := true;
      selectedIndex := -1;
    }

    /** `handleInputFocus`: opens without touching the selection. */
    method HandleInputFocus()
      modifies this`isOpen
      ensures isOpen
    {
      isOpen := true;
    }

    /** The document's `mousedown` listener: a press outside the box closes the list. */
    method HandleClickOutside(insideDropdown: bool)
      modifies this`isOpen
      ensures isOpen == (old(isOpen) && insideDropdown)
    {
      if !insideDropdown {
        isOpen := false;
      }
    }
  }
}
