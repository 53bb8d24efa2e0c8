/**
 * The result list of components/VirtualizedConditionList.tsx: the module-level search cache
 * (a map kept in insertion order, at most 50 entries, the oldest evicted first), the row
 * height of each condition, the per-id details toggle, and the dose text and note badge of
 * a row.
 */
module ConditionList {
  import opened Wrappers
  import opened Text
  import opened Records

  /** `CACHE_SIZE_LIMIT`. */
  const CacheSizeLimit: nat := 50

  // ---------------------------------------------------------------------------
  // The search cache

  /** The key order after the size check of `setCachedSearchResult`: the oldest key goes at the limit. */
  function EvictFirst(keys: seq<string>): (r: seq<string>)
    ensures |keys| >= CacheSizeLimit ==> r == keys[1..]
    ensures |keys| < CacheSizeLimit ==> r == keys
  {
    if |keys| >= CacheSizeLimit then keys[1..] else keys
  }

  /**
   * The key order after `setCachedSearchResult(k, _)`: first the eviction, then `k` keeps its
   * place when it is still present, and is appended otherwise.
   */
  function SetKeys(keys: seq<string>, k: string): (r: seq<string>)
    ensures k in r
    ensures forall i :: 0 <= i < |r| ==> r[i] == k || r[i] in keys
    ensures NoDuplicates(keys) ==> NoDuplicates(r)
    ensures |keys| <= CacheSizeLimit ==> |r| <= CacheSizeLimit
    ensures |keys| < CacheSizeLimit ==> forall i :: 0 <= i < |keys| ==> keys[i] in r
    ensures |keys| >= CacheSizeLimit && NoDuplicates(keys) ==> keys[0] !in r || keys[0] == k
  {
    var kept := EvictFirst(keys);
    if k in kept then kept else kept + [k]
  }

  /** At the limit a set of a key that is already present, but not the oldest, leaves 49 entries. */
  lemma SetPresentKeyAtLimitShrinks(keys: seq<string>, k: string)
    requires |keys| == CacheSizeLimit && NoDuplicates(keys) && k in keys[1..]
    ensures |SetKeys(keys, k)| == CacheSizeLimit - 1
  {
  }

  /** At the limit even the key being set is evicted when it is the oldest, and it comes back last. */
  lemma SetOldestKeyAtLimitMovesIt(keys: seq<string>)
    requires |keys| == CacheSizeLimit && NoDuplicates(keys)
    ensures SetKeys(keys, keys[0]) == keys[1..] + [keys[0]]
  {
    assert keys[0] !in keys[1..];
  }

  /** The module-level `searchCache`. */
  class SearchCache {
    /** The keys in insertion order. */
    var keys: seq<string>
    var entries: map<string, seq<Condition>>

    ghost predicate Valid()
      reads this
    {
      && NoDuplicates(keys)
      && (forall k :: k in entries <==> k in keys)
      && |keys| <= CacheSizeLimit
    }

    /** The number of entries (`searchCache.size`). */
    function Size(): nat
      reads this
    {
      |keys|
    }

    constructor ()
      ensures Valid() && keys == [] && entries == map[]
    {
      keys, entries := [], map[];
    }

    /** `getCachedSearchResult`: the stored result, or nothing. */
    function Get(k: string): (r: Option<seq<Condition>>)
      reads this
      ensures r.Some? <==> k in entries
      ensures r.Some? ==> r.value == entries[k]
    {
      if k in entries then Some(entries[k]) else None
    }

    /**
     * `setCachedSearchResult`: at 50 entries the oldest is deleted first, even when it is `k`
     * or `k` is already present; then `k` maps to `result`.
     */
    method Set(k: string, result: seq<Condition>)
      requires Valid()
      modifies this
      ensures Valid()
      ensures keys == SetKeys(old(keys), k)
      ensures entries == (if |old(keys)| >= CacheSizeLimit then old(entries) - {old(keys)[0]} else old(entries))[k := result]
      ensures Get(k) == Some(result)
      ensures |old(keys)| < CacheSizeLimit ==>
                forall x :: x != k && x in old(entries) ==> x in entries && entries[x] == old(entries)[x]
    {
      if |keys| >= CacheSizeLimit {
        var first := keys[0];
        keys := keys[1..];
        entries := entries - {first};
      }
      if k !in entries {
        keys := keys + [k];
      }
      entries := entries[k := result];
    }

    /** `clearSearchCache`. */
    method Clear()
      modifies this
      ensures Valid() && keys == []
      ensures forall k :: Get(k) == None
    {
      keys, entries := [], map[];
    }
  }

  // ---------------------------------------------------------------------------
  // The rows

  /** The height of a collapsed row. */
  const BaseHeight: int := 200
  /** The height the notes section adds. */
  const NotesHeight: int := 180
  /** The height the details section adds. */
  const DetailsHeight: int := 600

  /** `getItemSize(index)`: the base height plus each expanded section's height. */
  method GetItemSize(conditions: seq<Condition>, index: nat, expandedNotes: map<int, bool>,
                     expandedDetails: map<int, bool>) returns (height: int)
    requires index < |conditions|
    ensures var id := conditions[index].id;
            height == BaseHeight + (if Flag(expandedNotes, id) then NotesHeight else 0)
                                 + (if Flag(expandedDetails, id) then DetailsHeight else 0)
    ensures height in {200, 380, 800, 980}
    ensures height >= BaseHeight + DetailsHeight <==> Flag(expandedDetails, conditions[index].id)
  {
    var condition := conditions[index];
    height := BaseHeight;
    if Flag(expandedNotes, condition.id) {
      height := height + NotesHeight;
    }
    if Flag(expandedDetails, condition.id) {
      height := height + DetailsHeight;
    }
  }

  /** The list's own state: which rows show their details. */
  class ConditionListState {
    var expandedDetails: map<int, bool>

    constructor ()
      ensures expandedDetails == map[]
    {
      expandedDetails := map[];
    }

    /** `onToggleDetails`: flips the given id only; a missing id counts as collapsed. */
    method OnToggleDetails(id: int)
      modifies this
      ensures expandedDetails == ToggleFlag(old(expandedDetails), id)
      ensures Flag(expandedDetails, id) == !Flag(old(expandedDetails), id)
      ensures forall x :: x != id ==> Flag(expandedDetails, x) == Flag(old(expandedDetails), x)
    {
      expandedDetails := ToggleFlag(expandedDetails, id);
    }
  }

  /** The dose shown by `formatTreatment`: the per-kilogram dose for a pediatric treatment that has one, else `dose`. */
  function DoseText(t: Treatment, isPediatric: bool): (r: Option<string>)
    ensures !isPediatric ==> r == t.dose
    ensures isPediatric && Truthy(t.doseMgPerKg) ==> r == t.doseMgPerKg
    ensures isPediatric && !Truthy(t.doseMgPerKg) ==> r == t.dose
  {
    if isPediatric && Truthy(t.doseMgPerKg) then t.doseMgPerKg else t.dose
  }

  /** The maximum-dose suffix: " (max …)" for a pediatric treatment with a maximum, else empty. */
  function MaxDoseSuffix(t: Treatment, isPediatric: bool): (r: string)
    ensures r != "" <==> isPediatric && Truthy(t.maxDose)
    ensures r != "" ==> r == " (max " + t.maxDose.value + ")"
  {
    if isPediatric && Truthy(t.maxDose) then " (max " + t.maxDose.value + ")" else ""
  }

  /** The note badge of a row is shown when the row's note has a character other than white space. */
  lemma NoteBadgeIff(notes: map<int, string>, id: int)
    ensures HasNote(notes, id) <==> id in notes && exists i :: 0 <= i < |notes[id]| && !IsSpace(notes[id][i])
  {
    if id in notes {
      TrimEmptyIff(notes[id]);
    }
  }
}
