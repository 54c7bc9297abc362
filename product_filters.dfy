/** The filter sidebar of frontend/src/components/ProductFilters.tsx: the
    list of expanded sections and the map from section key to the values
    checked in it. */
module ProductFilters {
  import opened Common

  const InitialExpanded: seq<string> := ["category", "price"]

  /** toggleSection: a present key is removed wherever it occurs, an absent
      key is appended. */
  function ToggleSection(expanded: seq<string>, key: string): (r: seq<string>)
    ensures key in r <==> key !in expanded
  {
    if key in expanded then
      var r := Filter(expanded, (k: string) => k != key);
      FilterMembers(expanded, (k: string) => k != key);
      r
    else expanded + [key]
  }

  /** Toggling a section that is not expanded twice gives back the original list. */
  lemma ToggleAbsentTwice(expanded: seq<string>, key: string)
    requires key !in expanded
    ensures ToggleSection(ToggleSection(expanded, key), key) == expanded
  {
    var keep := (k: string) => k != key;
    FilterAppend(expanded, [key], keep);
    FilterKeepsAll(expanded, keep);
  }

  /** Toggling a key leaves every other key's presence alone. */
  lemma ToggleKeepsOthers(expanded: seq<string>, key: string, other: string)
    requires other != key
    ensures other in ToggleSection(expanded, key) <==> other in expanded
  {
    if key in expanded {
      var keep := (k: string) => k != key;
      FilterMembers(expanded, keep);
      if other in expanded {
        var i :| 0 <= i < |expanded| && expanded[i] == other;
      }
    }
  }

  /** Both sections start expanded; toggling one collapses it. */
  lemma InitialToggle()
    ensures ToggleSection(InitialExpanded, "price") == ["category"]
  {
    assert "price" in InitialExpanded;
    assert InitialExpanded == ["category"] + ["price"];
    var keep := (k: string) => k != "price";
    FilterAppend(["category"], ["price"], keep);
    assert Filter(["price"], keep) == [] by {
      assert ["price"][1..] == [];
    }
    assert Filter(["category"], keep) == ["category"] by {
      assert ["category"][1..] == [];
    }
  }

  /** `filters[sectionKey] || []` */
  function SectionValues(filters: map<string, seq<string>>, key: string): (r: seq<string>)
    ensures r != [] ==> key in filters && r == filters[key]
    ensures key !in filters ==> r == []
  {
    if key in filters then filters[key] else []
  }

  /** handleFilterChange: checking appends the value, even when it is already
      there; unchecking removes every occurrence of it. Other sections keep
      their lists. */
  function FilterChange(filters: map<string, seq<string>>, key: string, value: string, checked: bool): (r: map<string, seq<string>>)
    ensures key in r && r.Keys == filters.Keys + {key}
    ensures forall k :: k in filters && k != key ==> r[k] == filters[k]
    ensures checked ==> r[key] == SectionValues(filters, key) + [value]
    ensures !checked ==> value !in r[key]
  {
    var current := SectionValues(filters, key);
    var next := if checked then current + [value] else Filter(current, (f: string) => f != value);
    FilterMembers(current, (f: string) => f != value);
    filters[key := next]
  }

  /** Unchecking a value that was just checked, and was not there before,
      restores the section's list. */
  lemma UncheckUndoesCheck(filters: map<string, seq<string>>, key: string, value: string)
    requires value !in SectionValues(filters, key)
    ensures FilterChange(FilterChange(filters, key, value, true), key, value, false)[key] == SectionValues(filters, key)
  {
    var current := SectionValues(filters, key);
    var keep := (f: string) => f != value;
    FilterAppend(current, [value], keep);
    FilterKeepsAll(current, keep);
  }

  /** Unchecking keeps every other value of the section. */
  lemma UncheckKeepsOthers(filters: map<string, seq<string>>, key: string, value: string, other: string)
    requires other != value && other in SectionValues(filters, key)
    ensures other in FilterChange(filters, key, value, false)[key]
  {
    var current := SectionValues(filters, key);
    FilterMembers(current, (f: string) => f != value);
    var i :| 0 <= i < |current| && current[i] == other;
  }

  /** hasActiveFilters: some section has a checked value. */
  function HasActiveFilters(filters: map<string, seq<string>>): (r: bool)
    ensures r <==> exists k :: SectionValues(filters, k) != []
  {
    assert forall k :: SectionValues(filters, k) != [] <==> k in filters && |filters[k]| > 0;
    exists k :: k in filters && |filters[k]| > 0
  }

  /** clearAllFilters hands back the empty map. */
  function ClearAllFilters(): (r: map<string, seq<string>>)
    ensures !HasActiveFilters(r) && r.Keys == {}
  {
    map[]
  }

  /** Checking a value always activates the filters; emptying the only
      non-empty section deactivates them. */
  lemma CheckActivates(filters: map<string, seq<string>>, key: string, value: string)
    ensures HasActiveFilters(FilterChange(filters, key, value, true))
  {
    assert |FilterChange(filters, key, value, true)[key]| > 0;
  }

  lemma EmptySectionsAreInactive(filters: map<string, seq<string>>)
    requires forall k :: k in filters ==> filters[k] == []
    ensures !HasActiveFilters(filters)
  {
  }
}
