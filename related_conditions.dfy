/**
 * The "related conditions" panel of components/RelatedConditions.tsx: every other condition is
 * scored against the current one (same specialty, shared keywords, shared long name words and
 * closeness in order rank); those with a positive score are sorted best first and the first six
 * are shown.
 */
module Related {
  import opened Text
  import opened Records

  /** A candidate with the score it earned. */
  datatype Scored = Scored(condition: Condition, score: int)

  // ---------------------------------------------------------------------------
  // The score of one candidate

  /** `condition.keywords.filter((keyword) => currentCondition.keywords.includes(keyword))`. */
  function SharedKeywords(candidate: seq<string>, current: seq<string>): (r: seq<string>)
    ensures forall x :: multiset(r)[x] == (if x in current then multiset(candidate)[x] else 0)
    ensures |r| <= |candidate|
  {
    if candidate == [] then []
    else
      assert candidate == [candidate[0]] + candidate[1..];
      var rest := SharedKeywords(candidate[1..], current);
      if candidate[0] in current then [candidate[0]] + rest else rest
  }

  /**
   * `currentWords.filter((word) => conditionWords.includes(word) && word.length > 3)`, the length
   * counted in UTF-16 code units.
   */
  function SharedWords(currentWords: seq<string>, conditionWords: seq<string>): (r: seq<string>)
    ensures forall x :: multiset(r)[x] == (if x in conditionWords && JsLength(x) > 3 then multiset(currentWords)[x] else 0)
    ensures |r| <= |currentWords|
  {
    if currentWords == [] then []
    else
      assert currentWords == [currentWords[0]] + currentWords[1..];
      var rest := SharedWords(currentWords[1..], conditionWords);
      var w := currentWords[0];
      if w in conditionWords && JsLength(w) > 3 then [w] + rest else rest
  }

  /** The words of a name: lower-cased and split on single spaces. */
  function NameWords(name: string): seq<string> {
    Split(ToLower(name), ' ')
  }

  /** `Math.abs` on integers. */
  function Abs(x: int): (r: nat)
    ensures r == x || r == -x
  {
    if x < 0 then -x else x
  }

  /** The points for closeness in order rank: 2 within 5 places, 1 within 10, else none. */
  function RankPoints(current: Condition, candidate: Condition): (r: int)
    ensures Abs(candidate.orderRank - current.orderRank) <= 5 ==> r == 2
    ensures 5 < Abs(candidate.orderRank - current.orderRank) <= 10 ==> r == 1
    ensures Abs(candidate.orderRank - current.orderRank) > 10 ==> r == 0
  {
    var rankDifference := Abs(candidate.orderRank - current.orderRank);
    if rankDifference <= 5 then 2 else if rankDifference <= 10 then 1 else 0
  }

  /** The score a candidate earns against the current condition, part by part. */
  function Score(current: Condition, candidate: Condition): int {
    (if candidate.specialty == current.specialty then 3 else 0)
    + 2 * |SharedKeywords(candidate.keywords, current.keywords)|
    + |SharedWords(NameWords(current.name), NameWords(candidate.name))|
    + RankPoints(current, candidate)
  }

  /** The score lies between 0 and the most each part can give. */
  lemma ScoreBounds(current: Condition, candidate: Condition)
    ensures 0 <= Score(current, candidate)
    ensures Score(current, candidate) <= 3 + 2 * |candidate.keywords| + |NameWords(current.name)| + 2
  {
  }

  /** The candidate shares a keyword exactly when one of its keywords is also the current condition's. */
  lemma SharedKeywordsEmptyIff(candidate: seq<string>, current: seq<string>)
    ensures SharedKeywords(candidate, current) != [] <==> exists k :: k in candidate && k in current
  {
    var shared := SharedKeywords(candidate, current);
    if exists k :: k in candidate && k in current {
      var k :| k in candidate && k in current;
      assert multiset(shared)[k] > 0;
    }
    if shared != [] {
      assert multiset(shared)[shared[0]] > 0;
    }
  }

  /** The names share a word exactly when some word longer than three characters is in both. */
  lemma SharedWordsEmptyIff(currentWords: seq<string>, conditionWords: seq<string>)
    ensures SharedWords(currentWords, conditionWords) != [] <==>
              exists w :: w in currentWords && w in conditionWords && JsLength(w) > 3
  {
    var words := SharedWords(currentWords, conditionWords);
    if exists w :: w in currentWords && w in conditionWords && JsLength(w) > 3 {
      var w :| w in currentWords && w in conditionWords && JsLength(w) > 3;
      assert multiset(words)[w] > 0;
    }
    if words != [] {
      assert multiset(words)[words[0]] > 0;
    }
  }

  /** A score is positive exactly when some part gives points. */
  lemma ScorePositiveIff(current: Condition, candidate: Condition)
    ensures Score(current, candidate) > 0 <==>
              || candidate.specialty == current.specialty
              || (exists k :: k in candidate.keywords && k in current.keywords)
              || (exists w :: w in NameWords(current.name) && w in NameWords(candidate.name) && JsLength(w) > 3)
              || Abs(candidate.orderRank - current.orderRank) <= 10
  {
    SharedKeywordsEmptyIff(candidate.keywords, current.keywords);
    SharedWordsEmptyIff(NameWords(current.name), NameWords(candidate.name));
  }

  /** A keyword the candidate lists twice counts twice, as long as the current condition lists it. */
  lemma DuplicateKeywordCountsTwice(current: Condition, candidate: Condition, k: string)
    requires k in current.keywords && multiset(candidate.keywords)[k] >= 2
    ensures |SharedKeywords(candidate.keywords, current.keywords)| >= 2
  {
    var shared := SharedKeywords(candidate.keywords, current.keywords);
    assert multiset(shared)[k] >= 2;
    assert |multiset(shared)| == |shared|;
    assert multiset{k, k} <= multiset(shared);
  }

  /** The `let score` of the loop body, added to part by part. */
  method CandidateScore(current: Condition, condition: Condition) returns (score: int)
    ensures score == Score(current, condition)
  {
    score := 0;
    if condition.specialty == current.specialty {
      score := score + 3;
    }
    var sharedKeywords := SharedKeywords(condition.keywords, current.keywords);
    score := score + |sharedKeywords| * 2;
    var currentWords := Split(ToLower(current.name), ' ');
    var conditionWords := Split(ToLower(condition.name), ' ');
    var sharedWords := SharedWords(currentWords, conditionWords);
    score := score + |sharedWords|;
    var rankDifference := Abs(condition.orderRank - current.orderRank);
    if rankDifference <= 5 {
      score := score + 2;
    } else if rankDifference <= 10 {
      score := score + 1;
    }
  }

  // ---------------------------------------------------------------------------
  // Collecting, sorting and cutting

  /** Whether the loop keeps a candidate: another id than the current one, and a positive score. */
  predicate Kept(currentId: int, score: Condition -> int, condition: Condition) {
    condition.id != currentId && score(condition) > 0
  }

  /** The `related` array after the loop has seen `all`, pushed in order. */
  function Collect(currentId: int, score: Condition -> int, all: seq<Condition>): (r: seq<Scored>)
    ensures forall i :: 0 <= i < |r| ==>
              r[i].condition in all && Kept(currentId, score, r[i].condition) && r[i].score == score(r[i].condition)
    ensures |r| <= |all|
  {
    if all == [] then []
    else
      var n := |all| - 1;
      var rest := Collect(currentId, score, all[..n]);
      assert forall i :: 0 <= i < |rest| ==> rest[i].condition in all;
      if Kept(currentId, score, all[n]) then rest + [Scored(all[n], score(all[n]))] else rest
  }

  /** Every condition the loop keeps is collected. */
  lemma {:induction false} CollectHasKept(currentId: int, score: Condition -> int, all: seq<Condition>, i: nat)
    requires i < |all| && Kept(currentId, score, all[i])
    ensures Scored(all[i], score(all[i])) in Collect(currentId, score, all)
  {
    var n := |all| - 1;
    if i < n {
      assert all[..n][i] == all[i];
      CollectHasKept(currentId, score, all[..n], i);
    }
  }

  /** Whether the scores never increase along the list. */
  predicate ByScore(s: seq<Scored>) {
    forall i, j :: 0 <= i < j < |s| ==> s[i].score >= s[j].score
  }

  /** Places `x` before the first entry it is not below, so that earlier entries stay first among equals. */
  function Insert(x: Scored, s: seq<Scored>): (r: seq<Scored>)
    ensures multiset(r) == multiset(s) + multiset{x}
  {
    if s == [] || x.score >= s[0].score then [x] + s
    else
      assert s == [s[0]] + s[1..];
      [s[0]] + Insert(x, s[1..])
  }

  /** Inserting into a list sorted best first keeps it sorted. */
  lemma {:induction false} InsertByScore(x: Scored, s: seq<Scored>)
    requires ByScore(s)
    ensures ByScore(Insert(x, s))
  {
    if !(s == [] || x.score >= s[0].score) {
      var rest := Insert(x, s[1..]);
      InsertByScore(x, s[1..]);
      forall e | e in rest
        ensures e.score <= s[0].score
      {
        assert e in multiset(rest);
        assert e == x || e in multiset(s[1..]);
      }
      assert Insert(x, s) == [s[0]] + rest;
    }
  }

  /** `related.sort((a, b) => b.score - a.score)`: a stable sort, best score first. */
  function SortByScore(s: seq<Scored>): (r: seq<Scored>)
    ensures multiset(r) == multiset(s)
    ensures ByScore(r)
  {
    if s == [] then []
    else
      assert s == [s[0]] + s[1..];
      InsertByScore(s[0], SortByScore(s[1..]));
      Insert(s[0], SortByScore(s[1..]))
  }

  /** `.map((item) => item.condition)`. */
  function Conditions(s: seq<Scored>): (r: seq<Condition>)
    ensures |r| == |s|
    ensures forall i :: 0 <= i < |s| ==> r[i] == s[i].condition
  {
    seq(|s|, i requires 0 <= i < |s| => s[i].condition)
  }

  /** The most related conditions shown. */
  const MaxRelated: nat := 6

  /** The pipeline after the loop: sorted, the first six, as conditions. */
  function Ranked(currentId: int, score: Condition -> int, all: seq<Condition>): seq<Condition> {
    Conditions(Take(SortByScore(Collect(currentId, score, all)), MaxRelated))
  }

  /** The panel's list for the current condition. */
  function RelatedList(current: Condition, all: seq<Condition>): seq<Condition> {
    Ranked(current.id, c => Score(current, c), all)
  }

  /** The ranked conditions are other conditions of the list, with positive and non-increasing scores, six at most. */
  lemma RankedShape(currentId: int, score: Condition -> int, all: seq<Condition>)
    ensures |Ranked(currentId, score, all)| <= MaxRelated
    ensures forall i :: 0 <= i < |Ranked(currentId, score, all)| ==>
              var c := Ranked(currentId, score, all)[i];
              c in all && c.id != currentId && score(c) > 0
    ensures forall i, j :: 0 <= i < j < |Ranked(currentId, score, all)| ==>
              score(Ranked(currentId, score, all)[i]) >= score(Ranked(currentId, score, all)[j])
  {
    var collected := Collect(currentId, score, all);
    var sorted := SortByScore(collected);
    var top := Take(sorted, MaxRelated);
    forall i | 0 <= i < |top|
      ensures top[i].condition in all && Kept(currentId, score, top[i].condition) && top[i].score == score(top[i].condition)
    {
      assert top[i] == sorted[i];
      assert sorted[i] in multiset(collected);
    }
  }

  /** With six or fewer candidates kept, every one is ranked. */
  lemma FewCandidatesAllRanked(currentId: int, score: Condition -> int, all: seq<Condition>, i: nat)
    requires |Collect(currentId, score, all)| <= MaxRelated
    requires i < |all| && Kept(currentId, score, all[i])
    ensures all[i] in Ranked(currentId, score, all)
  {
    var collected := Collect(currentId, score, all);
    var sorted := SortByScore(collected);
    CollectHasKept(currentId, score, all, i);
    var e := Scored(all[i], score(all[i]));
    assert e in multiset(sorted);
    var k :| 0 <= k < |sorted| && sorted[k] == e;
    assert |sorted| == |collected| by {
      assert |multiset(sorted)| == |multiset(collected)|;
    }
    assert Ranked(currentId, score, all)[k] == all[i];
  }

  /**
   * The ranking is the top six: a kept candidate is ranked, or six are ranked and each of them
   * scores at least as much as it.
   */
  lemma KeptRankedOrOutscored(currentId: int, score: Condition -> int, all: seq<Condition>, i: nat)
    requires i < |all| && Kept(currentId, score, all[i])
    ensures all[i] in Ranked(currentId, score, all)
            || (|Ranked(currentId, score, all)| == MaxRelated
                && forall c :: c in Ranked(currentId, score, all) ==> score(c) >= score(all[i]))
  {
    var collected := Collect(currentId, score, all);
    var sorted := SortByScore(collected);
    var ranked := Ranked(currentId, score, all);
    CollectHasKept(currentId, score, all, i);
    var e := Scored(all[i], score(all[i]));
    assert e in multiset(sorted);
    var k :| 0 <= k < |sorted| && sorted[k] == e;
    if k < MaxRelated {
      assert ranked[k] == all[i];
    } else {
      forall c | c in ranked
        ensures score(c) >= score(all[i])
      {
        var j :| 0 <= j < |ranked| && ranked[j] == c;
        assert sorted[j] in multiset(collected);
      }
    }
  }

  /**
   * The panel shows the top six: another condition scoring above zero is shown, or six are
   * shown and each of them scores at least as much as it.
   */
  lemma ShownOrOutscored(current: Condition, all: seq<Condition>, i: nat)
    requires i < |all| && all[i].id != current.id && Score(current, all[i]) > 0
    ensures all[i] in RelatedList(current, all)
            || (|RelatedList(current, all)| == MaxRelated
                && forall c :: c in RelatedList(current, all) ==> Score(current, c) >= Score(current, all[i]))
  {
    KeptRankedOrOutscored(current.id, c => Score(current, c), all, i);
  }

  /** The panel shows other conditions of the list, with positive and non-increasing scores, six at most. */
  lemma RelatedListShape(current: Condition, all: seq<Condition>)
    ensures |RelatedList(current, all)| <= MaxRelated
    ensures forall c :: c in RelatedList(current, all) ==> c in all && c.id != current.id && Score(current, c) > 0
    ensures forall i, j :: 0 <= i < j < |RelatedList(current, all)| ==>
              Score(current, RelatedList(current, all)[i]) >= Score(current, RelatedList(current, all)[j])
  {
    RankedShape(current.id, c => Score(current, c), all);
  }

  /** With six or fewer other conditions scoring above zero, every one of them is shown. */
  lemma FewCandidatesAllShown(current: Condition, all: seq<Condition>, i: nat)
    requires |Collect(current.id, c => Score(current, c), all)| <= MaxRelated
    requires i < |all| && all[i].id != current.id && Score(current, all[i]) > 0
    ensures all[i] in RelatedList(current, all)
  {
    FewCandidatesAllRanked(current.id, c => Score(current, c), all, i);
  }

  /** One more step of the loop: the next condition is pushed when it is kept. */
  lemma CollectStep(currentId: int, score: Condition -> int, all: seq<Condition>, i: nat)
    requires i < |all|
    ensures Collect(currentId, score, all[..i + 1]) ==
              Collect(currentId, score, all[..i]) + (if Kept(currentId, score, all[i]) then [Scored(all[i], score(all[i]))] else [])
  {
    assert all[..i + 1][..i] == all[..i];
  }

  /** The `forEach` loop: skips the current id and pushes each candidate with a positive score. */
  method CollectRelated(current: Condition, allConditions: seq<Condition>) returns (related: seq<Scored>)
    ensures related == Collect(current.id, c => Score(current, c), allConditions)
  {
    ghost var scoreOf := c => Score(current, c);
    related := [];
    for i := 0 to |allConditions|
      invariant related == Collect(current.id, scoreOf, allConditions[..i])
    {
      CollectStep(current.id, scoreOf, allConditions, i);
      var condition := allConditions[i];
      if condition.id == current.id {
        continue;
      }
      var score := CandidateScore(current, condition);
      if score > 0 {
        related := related + [Scored(condition, score)];
      }
    }
    assert allConditions[..|allConditions|] == allConditions;
  }

  /**
   * The memoised `relatedConditions`: the loop, then the sort, the slice of six and the map.
   */
  method RelatedConditions(current: Condition, allConditions: seq<Condition>) returns (result: seq<Condition>)
    ensures result == RelatedList(current, allConditions)
    ensures |result| <= MaxRelated
    ensures forall i :: 0 <= i < |result| ==>
              result[i] in allConditions && result[i].id != current.id && Score(current, result[i]) > 0
    ensures forall i, j :: 0 <= i < j < |result| ==> Score(current, result[i]) >= Score(current, result[j])
  {
    var related := CollectRelated(current, allConditions);
    result := Conditions(Take(SortByScore(related), MaxRelated));
    RelatedListShape(current, allConditions);
  }
}
