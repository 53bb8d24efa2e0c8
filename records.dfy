/**
 * The bundled dataset's records and the user-state helpers shared by several components:
 * a note counts only when its trimmed text is non-empty, and per-id flags read a missing
 * id as false.
 */
module Records {
  import opened Wrappers
  import opened Text

  /** A treatment record; `dose`, `doseMgPerKg`, `maxDose` and `duration` may be absent. */
  datatype Treatment = Treatment(
    drugName: string,
    drugClass: string,
    dose: Option<string>,
    doseMgPerKg: Option<string>,
    maxDose: Option<string>,
    route: string,
    frequency: string,
    duration: Option<string>,
    notes: string)

  /** A condition record of the read-only dataset; `name` is the source's `condition` field. */
  datatype Condition = Condition(
    id: int,
    orderRank: int,
    name: string,
    icd10Code: string,
    abbrev: string,
    specialty: string,
    subSpecialty: Option<string>,
    ageGroup: string,
    presentation: string,
    investigations: string,
    redFlags: seq<string>,
    differentials: seq<string>,
    adultTreatment: Treatment,
    pedsTreatment: Option<Treatment>,
    procedure: Option<string>,
    keywords: seq<string>)

  /** JavaScript truthiness of an optional string: present and not "". */
  predicate Truthy(s: Option<string>) {
    s.Some? && s.value != ""
  }

  /** `notes[id]?.trim()` is truthy: the note exists and is not blank. */
  predicate HasNote(notes: map<int, string>, id: int) {
    id in notes && Trim(notes[id]) != ""
  }

  /** The ids whose note is not blank. */
  function NotedIds(notes: map<int, string>): (ids: set<int>)
    ensures ids <= notes.Keys
    ensures forall id :: id in ids <==> HasNote(notes, id)
  {
    set id | id in notes.Keys && Trim(notes[id]) != ""
  }

  /** `Object.keys(notes).filter((id) => notes[id]?.trim()).length`. */
  function NoteCount(notes: map<int, string>): (n: nat)
    ensures n <= |notes|
  {
    var ids := NotedIds(notes);
    assert |ids| <= |notes.Keys| by { SubsetCard(ids, notes.Keys); }
    |ids|
  }

  lemma SubsetCard<T>(a: set<T>, b: set<T>)
    requires a <= b
    ensures |a| <= |b|
  {
    assert b == a + (b - a);
  }

  /** Writing a note moves the count by exactly the change in that one id's blankness. */
  lemma NoteCountAfterEdit(notes: map<int, string>, id: int, text: string)
    ensures NoteCount(notes[id := text]) + (if HasNote(notes, id) then 1 else 0)
         == NoteCount(notes) + (if Trim(text) != "" then 1 else 0)
  {
    var edited := notes[id := text];
    var before := NotedIds(notes);
    var after := NotedIds(edited);
    forall x | x != id
      ensures x in after <==> x in before
    {
      assert HasNote(edited, x) <==> HasNote(notes, x);
    }
    assert id in after <==> Trim(text) != "";
    CardOutsideOne(before, after, id);
  }

  lemma CardOutsideOne<T>(a: set<T>, b: set<T>, x: T)
    requires forall y :: y != x ==> (y in a <==> y in b)
    ensures |b| + (if x in a then 1 else 0) == |a| + (if x in b then 1 else 0)
  {
    var rest := a - {x};
    assert b - {x} == rest;
    if x in a {
      assert a == rest + {x};
    } else {
      assert a == rest;
    }
    if x in b {
      assert b == rest + {x};
    } else {
      assert b == rest;
    }
  }

  /** `flags[id]` read as a boolean: a missing id is false. */
  predicate Flag(flags: map<int, bool>, id: int) {
    id in flags && flags[id]
  }

  /** `{ ...prev, [id]: !prev[id] }`. */
  function ToggleFlag(flags: map<int, bool>, id: int): (r: map<int, bool>)
    ensures Flag(r, id) == !Flag(flags, id)
    ensures r.Keys == flags.Keys + {id}
    ensures forall x :: x in flags && x != id ==> r[x] == flags[x]
  {
    flags[id := !Flag(flags, id)]
  }

  /** Toggling one id twice restores every flag, and the map itself when the id was present. */
  lemma ToggleFlagTwice(flags: map<int, bool>, id: int)
    ensures forall x :: Flag(ToggleFlag(ToggleFlag(flags, id), id), x) == Flag(flags, x)
    ensures id in flags ==> ToggleFlag(ToggleFlag(flags, id), id) == flags
  {
  }

  /** No element occurs twice. */
  predicate NoDuplicates<T(==)>(s: seq<T>) {
    forall i, j :: 0 <= i < j < |s| ==> s[i] != s[j]
  }

  /** A duplicate-free sequence has as many elements as its set. */
  lemma {:induction false} DistinctCard<T>(s: seq<T>)
    requires NoDuplicates(s)
    ensures |set x | x in s| == |s|
  {
    if s != [] {
      DistinctCard(s[1..]);
      assert (set x | x in s) == {s[0]} + (set x | x in s[1..]);
      assert s[0] !in s[1..];
    }
  }

  /** `s.filter((x) => x !== v)`. */
  function Remove<T(==)>(s: seq<T>, v: T): (r: seq<T>)
    ensures v !in r
    ensures forall i :: 0 <= i < |r| ==> r[i] in s && r[i] != v
    ensures forall i :: 0 <= i < |s| && s[i] != v ==> s[i] in r
    ensures |r| <= |s|
    ensures NoDuplicates(s) ==> NoDuplicates(r)
    ensures IsSubsequence(r, s)
    ensures multiset(r) == multiset(s)[v := 0]
  {
    if s == [] then []
    else if s[0] == v then
      var r := Remove(s[1..], v);
      RemoveDropStep(s, v, r);
      r
    else
      var rest := Remove(s[1..], v);
      RemoveKeepStep(s, v, rest, [s[0]] + rest);
      [s[0]] + rest
  }

  /** The step of `Remove` that drops a head equal to the removed value. */
  lemma RemoveDropStep<T>(s: seq<T>, v: T, r: seq<T>)
    requires s != [] && s[0] == v
    requires v !in r
    requires forall i :: 0 <= i < |r| ==> r[i] in s[1..] && r[i] != v
    requires forall i :: 0 <= i < |s[1..]| && s[1..][i] != v ==> s[1..][i] in r
    requires |r| <= |s[1..]|
    requires NoDuplicates(s[1..]) ==> NoDuplicates(r)
    requires IsSubsequence(r, s[1..])
    requires multiset(r) == multiset(s[1..])[v := 0]
    ensures forall i :: 0 <= i < |r| ==> r[i] in s && r[i] != v
    ensures forall i :: 0 <= i < |s| && s[i] != v ==> s[i] in r
    ensures |r| <= |s|
    ensures NoDuplicates(s) ==> NoDuplicates(r)
    ensures IsSubsequence(r, s)
    ensures multiset(r) == multiset(s)[v := 0]
  {
    assert s == [s[0]] + s[1..];
    assert forall i :: 1 <= i < |s| ==> s[i] == s[1..][i - 1];
    SubsequenceCons(r, s[1..], s[0]);
    assert multiset(s) == multiset{s[0]} + multiset(s[1..]);
  }

  /** The step of `Remove` that keeps a head other than the removed value. */
  lemma RemoveKeepStep<T>(s: seq<T>, v: T, rest: seq<T>, r: seq<T>)
    requires s != [] && s[0] != v && r == [s[0]] + rest
    requires v !in rest
    requires forall i :: 0 <= i < |rest| ==> rest[i] in s[1..] && rest[i] != v
    requires forall i :: 0 <= i < |s[1..]| && s[1..][i] != v ==> s[1..][i] in rest
    requires |rest| <= |s[1..]|
    requires NoDuplicates(s[1..]) ==> NoDuplicates(rest)
    requires IsSubsequence(rest, s[1..])
    requires multiset(rest) == multiset(s[1..])[v := 0]
    ensures v !in r
    ensures forall i :: 0 <= i < |r| ==> r[i] in s && r[i] != v
    ensures forall i :: 0 <= i < |s| && s[i] != v ==> s[i] in r
    ensures |r| <= |s|
    ensures NoDuplicates(s) ==> NoDuplicates(r)
    ensures IsSubsequence(r, s)
    ensures multiset(r) == multiset(s)[v := 0]
  {
    assert s == [s[0]] + s[1..];
    assert r[1..] == rest;
    assert forall i :: 1 <= i < |s| ==> s[i] == s[1..][i - 1];
    assert forall i :: 1 <= i < |r| ==> r[i] == rest[i - 1];
    SubsequenceBoth(rest, s[1..], s[0]);
    assert multiset(s) == multiset{s[0]} + multiset(s[1..]);
    assert multiset(r) == multiset{s[0]} + multiset(rest);
  }

  /** Removing an absent value changes nothing. */
  lemma {:induction false} RemoveAbsent<T>(s: seq<T>, v: T)
    requires v !in s
    ensures Remove(s, v) == s
  {
    if s != [] {
      RemoveAbsent(s[1..], v);
    }
  }

  /** Removing a value from just after its only occurrence at the end gives back the prefix. */
  lemma RemoveAppended<T>(s: seq<T>, v: T)
    requires v !in s
    ensures Remove(s + [v], v) == s
  {
    if s == [] {
    } else {
      assert (s + [v])[1..] == s[1..] + [v];
      RemoveAppended(s[1..], v);
    }
  }

  /** `s.slice(0, n)`. */
  function Take<T>(s: seq<T>, n: nat): (r: seq<T>)
    ensures |r| <= n && |r| <= |s|
    ensures |s| <= n ==> r == s
    ensures n <= |s| ==> |r| == n
    ensures forall i :: 0 <= i < |r| ==> r[i] == s[i]
  {
    if |s| <= n then s else s[..n]
  }

  /** Appending `x` to `p` keeps the first-occurrence order of `d`, extended by `x` when `x` is new. */
  lemma {:induction false} FirstIndexSnoc<T>(p: seq<T>, x: T, d: seq<T>, r: seq<T>)
    requires forall i :: 0 <= i < |p| ==> p[i] in d
    requires forall i :: 0 <= i < |d| ==> d[i] in p
    requires forall i, j :: 0 <= i < j < |d| ==> FirstIndex(p, d[i]) < FirstIndex(p, d[j])
    requires r == if x in d then d else d + [x]
    ensures forall i :: 0 <= i < |r| ==> r[i] in p + [x]
    ensures forall i, j :: 0 <= i < j < |r| ==> FirstIndex(p + [x], r[i]) < FirstIndex(p + [x], r[j])
  {
    var s := p + [x];
    assert s[..|p|] == p;
    forall i | 0 <= i < |d| ensures FirstIndex(s, d[i]) == FirstIndex(p, d[i]) {
      FirstIndexPrefix(s, |p|, d[i]);
    }
    if x !in d {
      var k := FirstIndex(s, x);
      assert forall m :: 0 <= m < |p| ==> s[m] == p[m];
      assert k == |p|;
      assert forall i :: 0 <= i < |d| ==> r[i] == d[i];
    }
  }

  /**
   * `Array.from(new Set(s))`: each element once, in order of first occurrence. With the set of
   * elements fixed and no duplicates, the order clause leaves exactly one possible result.
   */
  function Distinct<T(==)>(s: seq<T>): (r: seq<T>)
    ensures NoDuplicates(r)
    ensures forall i :: 0 <= i < |s| ==> s[i] in r
    ensures forall i :: 0 <= i < |r| ==> r[i] in s
    ensures |r| <= |s|
    ensures IsSubsequence(r, s)
    ensures forall i, j :: 0 <= i < j < |r| ==> FirstIndex(s, r[i]) < FirstIndex(s, r[j])
  {
    if s == [] then []
    else
      var p, x := s[..|s| - 1], s[|s| - 1];
      var d := Distinct(p);
      assert s == p + [x];
      if x in d then
        SubsequenceAppendRight(d, p, [x]);
        FirstIndexSnoc(p, x, d, d);
        d
      else
        SubsequenceAppendBoth(d, p, [x]);
        FirstIndexSnoc(p, x, d, d + [x]);
        d + [x]
  }

  /** A sequence already free of duplicates is its own `Distinct`. */
  lemma {:induction false} DistinctOfDistinct<T>(s: seq<T>)
    requires NoDuplicates(s)
    ensures Distinct(s) == s
  {
    if s != [] {
      DistinctOfDistinct(s[..|s| - 1]);
      assert s[|s| - 1] !in s[..|s| - 1];
    }
  }

  /** `a` is `b` with some elements left out, the rest in the same order. */
  predicate IsSubsequence<T(==)>(a: seq<T>, b: seq<T>)
    decreases |b|
  {
    a == [] || (b != [] && if a[0] == b[0] then IsSubsequence(a[1..], b[1..]) else IsSubsequence(a, b[1..]))
  }

  lemma {:induction false} SubsequenceDropFirst<T>(a: seq<T>, b: seq<T>)
    requires a != [] && IsSubsequence(a, b)
    ensures IsSubsequence(a[1..], b)
    decreases |b|, 0
  {
    assert b == [b[0]] + b[1..];
    if a[0] != b[0] {
      SubsequenceDropFirst(a, b[1..]);
    }
    SubsequenceCons(a[1..], b[1..], b[0]);
  }

  lemma {:induction false} SubsequenceCons<T>(a: seq<T>, b: seq<T>, x: T)
    requires IsSubsequence(a, b)
    ensures IsSubsequence(a, [x] + b)
    decreases |b|, 1
  {
    assert ([x] + b)[1..] == b;
    if a != [] && a[0] == x {
      SubsequenceDropFirst(a, b);
    }
  }

  /** The same first element on both sides keeps a subsequence one. */
  lemma SubsequenceBoth<T>(a: seq<T>, b: seq<T>, x: T)
    requires IsSubsequence(a, b)
    ensures IsSubsequence([x] + a, [x] + b)
  {
    assert ([x] + a)[1..] == a && ([x] + b)[1..] == b;
  }

  lemma {:induction false} SubsequencePrepend<T>(a: seq<T>, b: seq<T>, c: seq<T>)
    requires IsSubsequence(a, c)
    ensures IsSubsequence(a, b + c)
    decreases |b|
  {
    if b != [] {
      SubsequencePrepend(a, b[1..], c);
      assert b + c == [b[0]] + (b[1..] + c);
      SubsequenceCons(a, b[1..] + c, b[0]);
    } else {
      assert b + c == c;
    }
  }

  lemma {:induction false} SubsequenceRefl<T>(a: seq<T>)
    ensures IsSubsequence(a, a)
    decreases |a|
  {
    if a != [] {
      SubsequenceRefl(a[1..]);
    }
  }

  /** Appending to the longer sequence keeps a subsequence. */
  lemma {:induction false} SubsequenceAppendRight<T>(a: seq<T>, b: seq<T>, c: seq<T>)
    requires IsSubsequence(a, b)
    ensures IsSubsequence(a, b + c)
    decreases |b|
  {
    if a != [] {
      assert (b + c)[0] == b[0] && (b + c)[1..] == b[1..] + c;
      if a[0] == b[0] {
        SubsequenceAppendRight(a[1..], b[1..], c);
      } else {
        SubsequenceAppendRight(a, b[1..], c);
      }
    }
  }

  /** Appending the same sequence to both keeps a subsequence. */
  lemma {:induction false} SubsequenceAppendBoth<T>(a: seq<T>, b: seq<T>, c: seq<T>)
    requires IsSubsequence(a, b)
    ensures IsSubsequence(a + c, b + c)
    decreases |b|
  {
    if a == [] {
      SubsequenceRefl(c);
      SubsequencePrepend(c, b, c);
      assert a + c == c;
    } else {
      assert (b + c)[0] == b[0] && (b + c)[1..] == b[1..] + c;
      assert (a + c)[0] == a[0] && (a + c)[1..] == a[1..] + c;
      if a[0] == b[0] {
        SubsequenceAppendBoth(a[1..], b[1..], c);
      } else {
        SubsequenceAppendBoth(a, b[1..], c);
      }
    }
  }
}
