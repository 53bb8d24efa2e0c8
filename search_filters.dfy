/** The filter panel of components/AdvancedSearchFilters.tsx: its option vocabularies and `hasActiveFilters`. */
module SearchFilters {

  /** The severity values the panel offers, in display order. */
  const SeverityLevels: seq<string> := ["All", "Critical", "High", "Moderate", "Low"]

  /** The age-group values the panel offers, in display order. */
  const AgeGroups: seq<string> := ["All", "Adult", "Pediatric", "Both"]

  /**
   * `hasActiveFilters`: some filter other than the search term narrows the list.
   * The search term is deliberately not an input.
   */
  predicate HasActiveFilters(specialty: string, ageGroup: string, severity: string, favoritesOnly: bool) {
    specialty != "All" || ageGroup != "All" || severity != "All" || favoritesOnly
  }

  /** Every panel value other than "All" makes the filters active, each on its own. */
  lemma EachOfferedValueActivates(specialty: string)
    ensures specialty != "All" ==> HasActiveFilters(specialty, "All", "All", false)
    ensures forall i :: 1 <= i < |AgeGroups| ==> HasActiveFilters("All", AgeGroups[i], "All", false)
    ensures forall i :: 1 <= i < |SeverityLevels| ==> HasActiveFilters("All", "All", SeverityLevels[i], false)
    ensures HasActiveFilters("All", "All", "All", true)
    ensures !HasActiveFilters("All", "All", "All", false)
  {
  }
}
